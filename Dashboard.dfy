/** The dashboard page (src/app/components/dashboard/dashboard.component.ts):
    a fixed document list, a filter selection and status colours. */
module Dashboard {

  /** The Tailwind classes of a status badge in the given colour: light
      background, dark text, and the reverse in dark mode. */
  function Palette(colour: string): string {
    ("bg-" + colour + "-100 ") + ("text-" + colour + "-800 ")
    + ("dark:bg-" + colour + "-900 ") + ("dark:text-" + colour + "-300")
  }

  /** The four badge class strings, as written in `getStatusColor`, one
      class per piece. */
  const GreenClasses: string := "bg-green-100 " + "text-green-800 " + "dark:bg-green-900 " + "dark:text-green-300"
  const YellowClasses: string := "bg-yellow-100 " + "text-yellow-800 " + "dark:bg-yellow-900 " + "dark:text-yellow-300"
  const RedClasses: string := "bg-red-100 " + "text-red-800 " + "dark:bg-red-900 " + "dark:text-red-300"
  const GrayClasses: string := "bg-gray-100 " + "text-gray-800 " + "dark:bg-gray-900 " + "dark:text-gray-300"

  /** `getStatusColor(status)`: the three known statuses have their own
      badge, and every other status falls through to the gray one. */
  function StatusColor(status: string): (r: string)
    ensures r == GrayClasses <==> status != "Pronto" && status != "Processando" && status != "Erro"
    ensures r in {GreenClasses, YellowClasses, RedClasses, GrayClasses}
  {
    PaletteNamesColour("green");
    PaletteNamesColour("yellow");
    PaletteNamesColour("red");
    PaletteNamesColour("gray");
    LiteralsArePalettes();
    if status == "Pronto" then GreenClasses
    else if status == "Processando" then YellowClasses
    else if status == "Erro" then RedClasses
    else GrayClasses
  }

  /** The class string names its colour right after "bg-". */
  lemma PaletteNamesColour(colour: string)
    ensures 3 + |colour| < |Palette(colour)|
    ensures Palette(colour)[..3] == "bg-"
    ensures forall k :: 0 <= k < |colour| ==> Palette(colour)[3 + k] == colour[k]
  {
    var p := Palette(colour);
    assert p == "bg-" + (colour + ("-100 " + ("text-" + colour + "-800 ")
      + ("dark:bg-" + colour + "-900 ") + ("dark:text-" + colour + "-300")));
  }

  /** The green badge's literal class string is the green palette. */
  lemma GreenIsPalette()
    ensures GreenClasses == Palette("green")
  {
    assert "bg-green-100 " == "bg-" + "green" + "-100 ";
    assert "text-green-800 " == "text-" + "green" + "-800 ";
    assert "dark:bg-green-900 " == "dark:bg-" + "green" + "-900 ";
    assert "dark:text-green-300" == "dark:text-" + "green" + "-300";
  }

  /** The yellow badge's literal class string is the yellow palette. */
  lemma YellowIsPalette()
    ensures YellowClasses == Palette("yellow")
  {
    assert "bg-yellow-100 " == "bg-" + "yellow" + "-100 ";
    assert "text-yellow-800 " == "text-" + "yellow" + "-800 ";
    assert "dark:bg-yellow-900 " == "dark:bg-" + "yellow" + "-900 ";
    assert "dark:text-yellow-300" == "dark:text-" + "yellow" + "-300";
  }

  /** The red badge's literal class string is the red palette. */
  lemma RedIsPalette()
    ensures RedClasses == Palette("red")
  {
    assert "bg-red-100 " == "bg-" + "red" + "-100 ";
    assert "text-red-800 " == "text-" + "red" + "-800 ";
    assert "dark:bg-red-900 " == "dark:bg-" + "red" + "-900 ";
    assert "dark:text-red-300" == "dark:text-" + "red" + "-300";
  }

  /** The gray badge's literal class string is the gray palette. */
  lemma GrayIsPalette()
    ensures GrayClasses == Palette("gray")
  {
    assert "bg-gray-100 " == "bg-" + "gray" + "-100 ";
    assert "text-gray-800 " == "text-" + "gray" + "-800 ";
    assert "dark:bg-gray-900 " == "dark:bg-" + "gray" + "-900 ";
    assert "dark:text-gray-300" == "dark:text-" + "gray" + "-300";
  }

  /** Each literal class string is the palette of its colour. */
  lemma LiteralsArePalettes()
    ensures GreenClasses == Palette("green")
    ensures YellowClasses == Palette("yellow")
    ensures RedClasses == Palette("red")
    ensures GrayClasses == Palette("gray")
  {
    GreenIsPalette();
    YellowIsPalette();
    RedIsPalette();
    GrayIsPalette();
  }

  /** The three known statuses get green, yellow and red, anything else
      gray, and no two of the four class strings are equal. */
  lemma StatusColors(status: string)
    ensures StatusColor("Pronto") == Palette("green")
    ensures StatusColor("Processando") == Palette("yellow")
    ensures StatusColor("Erro") == Palette("red")
    ensures status != "Pronto" && status != "Processando" && status != "Erro" ==>
              StatusColor(status) == Palette("gray")
    ensures |{Palette("green"), Palette("yellow"), Palette("red"), Palette("gray")}| == 4
  {
    LiteralsArePalettes();
    PaletteNamesColour("green");
    PaletteNamesColour("yellow");
    PaletteNamesColour("red");
    PaletteNamesColour("gray");
  }

  datatype Document = Document(name: string, fileType: string, uploadDate: string, status: string, icon: string)

  const AllFilter: string := "Todos"

  function SampleDocuments(): seq<Document> {
    [ Document("relatorio_anual.pdf", "PDF", "25/10/2023", "Pronto", "picture_as_pdf"),
      Document("contrato_venda.docx", "DOCX", "24/10/2023", "Processando", "description"),
      Document("apresentacao_q3.pptx", "PPTX", "23/10/2023", "Erro", "slideshow") ]
  }

  class DashboardComponent {
    var selectedFilter: string
    var documents: seq<Document>

    constructor ()
      ensures selectedFilter == AllFilter && documents == SampleDocuments()
    {
      selectedFilter := AllFilter;
      documents := SampleDocuments();
    }

    /** Only records the choice; the list is not filtered. */
    method OnFilterChange(filter: string)
      modifies this`selectedFilter
      ensures selectedFilter == filter
    {
      selectedFilter := filter;
    }
  }
}
