/** The `fileType` pipe: turns a MIME type into a short Portuguese label
    (src/app/pipes/file-type.pipe.ts). */
module FileTypes {
  import opened JsStrings

  const Unknown: string := "Desconhecido"

  /** The Office Open XML MIME types the pipe tests for, written as a shared
      prefix plus a suffix. */
  const OfficePrefix: string := "vnd.openxmlformats-officedocument."
  const WordDocx: string := OfficePrefix + "wordprocessingml.document"
  const PowerPointPptx: string := OfficePrefix + "presentationml.presentation"
  const ExcelXlsx: string := OfficePrefix + "spreadsheetml"

  /** One line of the pipe's chain of tests: either "the lower-cased value
      contains one of these needles" or "it starts with this prefix". */
  datatype Rule =
    | AnyOf(name: string, needles: seq<string>)
    | Prefix(name: string, prefix: string)

  /** The tests in the order the pipe makes them. */
  const Rules: seq<Rule> := [
    AnyOf("PDF", ["pdf"]),
    AnyOf("Word", ["word", "msword", WordDocx]),
    AnyOf("PowerPoint", ["presentation", "ppt", "powerpoint",
                         PowerPointPptx]),
    AnyOf("Planilha", ["excel", "spreadsheet", "sheet", "vnd.ms-excel",
                       ExcelXlsx]),
    AnyOf("Texto", ["plain", "text"]),
    Prefix("Imagem", "image/"),
    AnyOf("JSON", ["json"])
  ]

  /** `needles.some(n => v.includes(n))`, the pipe's `a || b || ...`. */
  predicate ContainsAny(v: string, needles: seq<string>) {
    |needles| > 0 && (Contains(v, needles[0]) || ContainsAny(v, needles[1..]))
  }

  predicate Matches(r: Rule, v: string) {
    match r
    case AnyOf(_, needles) => ContainsAny(v, needles)
    case Prefix(_, p) => StartsWith(v, p)
  }

  /** Index of the first rule that matches `v`, if any. */
  function FirstMatch(rules: seq<Rule>, v: string): (r: Option<nat>)
    ensures r.Some? ==> r.value < |rules| && Matches(rules[r.value], v)
    ensures r.Some? ==> forall j :: 0 <= j < r.value ==> !Matches(rules[j], v)
    ensures r.None? ==> forall j :: 0 <= j < |rules| ==> !Matches(rules[j], v)
  {
    if |rules| == 0 then None
    else if Matches(rules[0], v) then Some(0)
    else match FirstMatch(rules[1..], v)
      case None => None
      case Some(k) => Some(k + 1)
  }

  /** `s` is the text of `v` after its first '/', at `i`, up to the next
      '/' or the end. */
  predicate SegmentAt(v: string, i: nat, s: string) {
    i < |v| && v[i] == '/' && '/' !in v[..i] && '/' !in s
    && i + 1 + |s| <= |v| && v[i + 1..i + 1 + |s|] == s
    && (i + 1 + |s| == |v| || v[i + 1 + |s|] == '/')
  }

  /** At most one segment follows the first '/'. */
  lemma SegmentAtUnique(v: string, i: nat, s: string, i': nat, s': string)
    requires SegmentAt(v, i, s) && SegmentAt(v, i', s')
    ensures i == i' && s == s'
  {
  }

  /** `value.split('/')[1]`: the text between the first '/' and the next one
      (or the end); None when there is no '/'. */
  function SecondSegment(v: string): (r: Option<string>)
    ensures r.Some? <==> '/' in v
    ensures r.Some? ==> exists i :: SegmentAt(v, i, r.value)
  {
    match IndexOf(v, '/')
    case None => None
    case Some(i) =>
      var after := v[i + 1..];
      match IndexOf(after, '/')
      case None =>
        assert SegmentAt(v, i, after);
        Some(after)
      case Some(j) =>
        assert v[i + 1..i + 1 + j] == after[..j];
        assert SegmentAt(v, i, after[..j]);
        Some(after[..j])
  }

  /** Lower-casing keeps every '/' where it was and adds none. */
  lemma LowerKeepsSlashes(value: string)
    ensures '/' in value <==> '/' in Lower(value)
  {
    var v := Lower(value);
    if '/' in value {
      var k :| 0 <= k < |value| && value[k] == '/';
      assert v[k] == '/';
    }
    if '/' in v {
      var k :| 0 <= k < |v| && v[k] == '/';
      assert value[k] == '/';
    }
  }

  /** What the pipe returns when no rule matched: the lower-cased second
      segment when it is non-empty, otherwise the input as it is. */
  function Fallback(value: string): (r: string)
    ensures '/' !in value ==> r == value
    ensures forall i: nat, s :: SegmentAt(Lower(value), i, s) ==> r == (if s != "" then s else value)
  {
    LowerKeepsSlashes(value);
    var seg := SecondSegment(Lower(value));
    FallbackSegment(value, seg);
    if seg.Some? && seg.value != "" then seg.value else value
  }

  lemma FallbackSegment(value: string, seg: Option<string>)
    requires seg == SecondSegment(Lower(value))
    ensures forall i: nat, s :: SegmentAt(Lower(value), i, s) ==> seg == Some(s)
  {
    forall i: nat, s | SegmentAt(Lower(value), i, s)
      ensures seg == Some(s)
    {
      var i' :| SegmentAt(Lower(value), i', seg.value);
      SegmentAtUnique(Lower(value), i, s, i', seg.value);
    }
  }

  /** The chain of tests on the lower-cased value; None when none holds. */
  function Label(v: string): Option<string> {
    if ContainsAny(v, ["pdf"]) then Some("PDF")
    else if ContainsAny(v, ["word", "msword", WordDocx])
      then Some("Word")
    else if ContainsAny(v, ["presentation", "ppt", "powerpoint",
                            PowerPointPptx])
      then Some("PowerPoint")
    else if ContainsAny(v, ["excel", "spreadsheet", "sheet", "vnd.ms-excel",
                            ExcelXlsx])
      then Some("Planilha")
    else if ContainsAny(v, ["plain", "text"]) then Some("Texto")
    else if StartsWith(v, "image/") then Some("Imagem")
    else if ContainsAny(v, ["json"]) then Some("JSON")
    else None
  }

  /** `FileTypePipe.transform`; None stands for both `null` and `undefined`. */
  function Transform(value: Option<string>): (r: string)
    ensures r != ""
    ensures value.None? || value.value == "" ==> r == Unknown
  {
    var v := Lower(if value.Some? then value.value else "");
    if v == "" then Unknown
    else match Label(v)
      case Some(l) => l
      case None => Fallback(value.value)
  }

  /** The chain of tests is a first-match-wins search of `Rules` on the
      lower-cased input; with no match the pipe falls back to the second
      path segment or the input itself. */
  lemma TransformIsFirstMatch(value: string)
    requires value != ""
    ensures FirstMatch(Rules, Lower(value)).Some? ==>
              Transform(Some(value)) == Rules[FirstMatch(Rules, Lower(value)).value].name
    ensures FirstMatch(Rules, Lower(value)).None? ==> Transform(Some(value)) == Fallback(value)
  {
    var v := Lower(value);
    assert Rules[0].AnyOf? && Rules[0].name == "PDF";
    assert Rules[5].Prefix? && Rules[5].name == "Imagem";
    match FirstMatch(Rules, v)
    case None =>
      assert !Matches(Rules[0], v) && !Matches(Rules[1], v) && !Matches(Rules[2], v);
      assert !Matches(Rules[3], v) && !Matches(Rules[4], v) && !Matches(Rules[5], v);
      assert !Matches(Rules[6], v);
    case Some(i) =>
      assert Matches(Rules[i], v);
      if i > 0 { assert !Matches(Rules[0], v); }
      if i > 1 { assert !Matches(Rules[1], v); }
      if i > 2 { assert !Matches(Rules[2], v); }
      if i > 3 { assert !Matches(Rules[3], v); }
      if i > 4 { assert !Matches(Rules[4], v); }
      if i > 5 { assert !Matches(Rules[5], v); }
  }

  /** Upper- and lower-case spellings of a MIME type get the same label,
      except where the pipe hands back its (un-lowered) input. */
  lemma TransformCaseInsensitive(a: string, b: string)
    requires Lower(a) == Lower(b)
    ensures Transform(Some(a)) == Transform(Some(b))
            || (Transform(Some(a)) == a && Transform(Some(b)) == b)
  {
  }

  /** A test earlier in the chain shadows a later one: "text/json" is
      labelled as text, not as JSON. */
  lemma TextShadowsJson()
    ensures Transform(Some("text/json")) == "Texto"
  {
    var t := "text/json";
    LabelTextJson();
    assert Lower(t) == t;
  }

  lemma LabelTextJson()
    ensures Label("text/json") == Some("Texto")
  {
    var t := "text/json";
    NotContainsChar(t, "pdf", 0);
    NoneContained(t, ["pdf"]);
    TextJsonNotWord(t);
    TextJsonNotPowerPoint(t);
    TextJsonNotSpreadsheet(t);
    ContainsAt(t, "text", 0);
    assert ContainsAny(t, ["plain", "text"]);
    LabelOfTextRule(t);
  }

  lemma TextJsonNotWord(t: string)
    requires t == "text/json"
    ensures !ContainsAny(t, ["word", "msword", WordDocx])
  {
    NotContainsChar(t, "word", 0);
    NotContainsChar(t, "msword", 0);
    NotContainsChar(t, WordDocx, 0);
    NoneContained(t, ["word", "msword", WordDocx]);
  }

  lemma TextJsonNotPowerPoint(t: string)
    requires t == "text/json"
    ensures !ContainsAny(t, ["presentation", "ppt", "powerpoint", PowerPointPptx])
  {
    NotContainsChar(t, "presentation", 0);
    NotContainsChar(t, "ppt", 0);
    NotContainsChar(t, "powerpoint", 0);
    NotContainsChar(t, PowerPointPptx, 0);
    NoneContained(t, ["presentation", "ppt", "powerpoint", PowerPointPptx]);
  }

  lemma TextJsonNotSpreadsheet(t: string)
    requires t == "text/json"
    ensures !ContainsAny(t, ["excel", "spreadsheet", "sheet", "vnd.ms-excel", ExcelXlsx])
  {
    NotContainsChar(t, "excel", 2);
    NotContainsChar(t, "spreadsheet", 1);
    NotContainsChar(t, "sheet", 1);
    NotContainsChar(t, "vnd.ms-excel", 0);
    NotContainsChar(t, ExcelXlsx, 0);
    NoneContained(t, ["excel", "spreadsheet", "sheet", "vnd.ms-excel", ExcelXlsx]);
  }

  lemma LabelOfTextRule(v: string)
    requires !ContainsAny(v, ["pdf"])
    requires !ContainsAny(v, ["word", "msword", WordDocx])
    requires !ContainsAny(v, ["presentation", "ppt", "powerpoint", PowerPointPptx])
    requires !ContainsAny(v, ["excel", "spreadsheet", "sheet", "vnd.ms-excel", ExcelXlsx])
    requires ContainsAny(v, ["plain", "text"])
    ensures Label(v) == Some("Texto")
  {
  }

  lemma {:induction false} NoneContained(v: string, needles: seq<string>)
    requires forall k :: 0 <= k < |needles| ==> !Contains(v, needles[k])
    ensures !ContainsAny(v, needles)
    decreases |needles|
  {
    if |needles| > 0 {
      NoneContained(v, needles[1..]);
    }
  }

  /** A type no rule names falls back to its lower-cased subtype. */
  lemma AudioFallsBack()
    ensures Transform(Some("audio/MPEG")) == "mpeg"
  {
    var t := "audio/mpeg";
    assert Lower("audio/MPEG") == t;
    AudioMatchesNoRule(t);
    AudioSubtype(t);
  }

  lemma AudioSubtype(t: string)
    requires t == "audio/mpeg"
    ensures SegmentAt(t, 5, "mpeg")
  {
    assert t[..5] == "audio";
    assert t[6..10] == "mpeg";
  }

  lemma AudioMatchesNoRule(t: string)
    requires t == "audio/mpeg"
    ensures Label(t) == None
  {
    AudioNotDocument(t);
    AudioNotSpreadsheet(t);
    NotContainsChar(t, "plain", 1);
    NotContainsChar(t, "text", 0);
    NoneContained(t, ["plain", "text"]);
    NotContainsChar(t, "json", 0);
    NoneContained(t, ["json"]);
    assert t[0] != "image/"[0];
  }

  lemma AudioNotDocument(t: string)
    requires t == "audio/mpeg"
    ensures !ContainsAny(t, ["pdf"])
    ensures !ContainsAny(t, ["word", "msword", WordDocx])
    ensures !ContainsAny(t, ["presentation", "ppt", "powerpoint", PowerPointPptx])
  {
    NotContainsChar(t, "pdf", 2);
    NoneContained(t, ["pdf"]);
    AudioNotWord(t);
    AudioNotPowerPoint(t);
  }

  lemma AudioNotWord(t: string)
    requires t == "audio/mpeg"
    ensures !ContainsAny(t, ["word", "msword", WordDocx])
  {
    NotContainsChar(t, "word", 0);
    NotContainsChar(t, "msword", 1);
    NotContainsChar(t, WordDocx, 0);
    NoneContained(t, ["word", "msword", WordDocx]);
  }

  lemma AudioNotPowerPoint(t: string)
    requires t == "audio/mpeg"
    ensures !ContainsAny(t, ["presentation", "ppt", "powerpoint", PowerPointPptx])
  {
    NotContainsChar(t, "presentation", 1);
    NotContainsChar(t, "ppt", 2);
    NotContainsChar(t, "powerpoint", 2);
    NotContainsChar(t, PowerPointPptx, 0);
    NoneContained(t, ["presentation", "ppt", "powerpoint", PowerPointPptx]);
  }

  lemma AudioNotSpreadsheet(t: string)
    requires t == "audio/mpeg"
    ensures !ContainsAny(t, ["excel", "spreadsheet", "sheet", "vnd.ms-excel", ExcelXlsx])
  {
    NotContainsChar(t, "excel", 1);
    NotContainsChar(t, "spreadsheet", 0);
    NotContainsChar(t, "sheet", 0);
    NotContainsChar(t, "vnd.ms-excel", 0);
    NotContainsChar(t, ExcelXlsx, 0);
    NoneContained(t, ["excel", "spreadsheet", "sheet", "vnd.ms-excel", ExcelXlsx]);
  }

  /** An upper-case MIME type is classified like its lower-case form. */
  lemma UpperCasePdf()
    ensures Transform(Some("APPLICATION/PDF")) == "PDF"
  {
    assert Lower("APPLICATION/PDF") == "application/pdf";
    ContainsAt("application/pdf", "pdf", 12);
  }
}
