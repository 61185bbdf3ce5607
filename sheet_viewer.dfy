/** The viewer's navigation: zoom and page updaters, the keyboard dispatch,
    and the page controls. The zoom factor only ever moves in steps of 0.25
    between 0.5 and 3.0 from 1.0, so it is kept as a whole number of quarters. */
module SheetViewer {
  import opened Records
  import SheetList

  const MinQuarters := 2
  const MaxQuarters := 12
  const InitialQuarters := 4

  /** The zoom factor a count of quarters stands for. */
  function Scale(quarters: int): real
  {
    quarters as real / 4.0
  }

  function RealMin(x: real, y: real): real { if x <= y then x else y }
  function RealMax(x: real, y: real): real { if x >= y then x else y }

  /** `Math.min(s + 0.25, 3.0)` in quarters. */
  function ZoomIn(quarters: int): (r: int)
    ensures r <= MaxQuarters && r <= quarters + 1
    ensures r == MaxQuarters || r == quarters + 1
  {
    if quarters + 1 < MaxQuarters then quarters + 1 else MaxQuarters
  }

  /** `Math.max(s - 0.25, 0.5)` in quarters. */
  function ZoomOut(quarters: int): (r: int)
    ensures r >= MinQuarters && r >= quarters - 1
    ensures r == MinQuarters || r == quarters - 1
  {
    if quarters - 1 > MinQuarters then quarters - 1 else MinQuarters
  }

  /** The quarter counts compute exactly the zoom factors the updaters compute. */
  lemma ZoomMatchesScale(quarters: int)
    ensures Scale(ZoomIn(quarters)) == RealMin(Scale(quarters) + 0.25, 3.0)
    ensures Scale(ZoomOut(quarters)) == RealMax(Scale(quarters) - 0.25, 0.5)
    ensures Scale(InitialQuarters) == 1.0
    ensures Scale(MinQuarters) == 0.5 && Scale(MaxQuarters) == 3.0
  {
  }

  /** The percentage on the reset button, `Math.round(scale * 100)`. */
  function ZoomPercent(quarters: int): (pct: int)
    ensures pct as real == Scale(quarters) * 100.0
  {
    25 * quarters
  }

  /** `Math.max(p - 1, 1)`. */
  function PrevPage(page: int): (r: int)
    ensures r >= 1 && r >= page - 1
    ensures r == 1 || r == page - 1
  {
    if page - 1 > 1 then page - 1 else 1
  }

  /** `Math.min(p + 1, totalPages)`. */
  function NextPage(page: int, totalPages: int): (r: int)
    ensures r <= totalPages && r <= page + 1
    ensures r == totalPages || r == page + 1
  {
    if page + 1 < totalPages then page + 1 else totalPages
  }

  predicate InZoomRange(quarters: int)
  {
    MinQuarters <= quarters <= MaxQuarters
  }

  predicate OnPage(page: int, totalPages: int)
  {
    1 <= page <= totalPages
  }

  /** Each button is disabled exactly when pressing it would change nothing. */
  lemma DisabledIffNoOp(quarters: int, page: int, totalPages: int)
    requires InZoomRange(quarters) && OnPage(page, totalPages)
    ensures ZoomIn(quarters) == quarters <==> Scale(quarters) >= 3.0
    ensures ZoomOut(quarters) == quarters <==> Scale(quarters) <= 0.5
    ensures PrevPage(page) == page <==> page == 1
    ensures NextPage(page, totalPages) == page <==> page == totalPages
  {
  }

  /** `isPDF`: the sheet's type is exactly the PDF type. */
  predicate IsPdf(sheet: Record)
    ensures IsPdf(sheet) <==> SheetList.Badge(sheet) == "PDF"
  {
    Field(sheet, "fileType") == Text("application/pdf")
  }

  /** The page controls are drawn for a PDF of more than one page: for a
      loaded PDF, exactly when the next-page button can move off page 1. */
  predicate ShowsPageControls(isPdf: bool, totalPages: int)
    ensures !isPdf ==> !ShowsPageControls(isPdf, totalPages)
    ensures isPdf && totalPages >= 1 ==> (ShowsPageControls(isPdf, totalPages) <==> NextPage(1, totalPages) != 1)
  {
    isPdf && totalPages > 1
  }

  /** A document of one page (every image, and a one-page PDF) shows no page
      controls, and the arrow keys leave it on its only page. */
  lemma SinglePageStays(isPdf: bool, s: ViewState, key: string)
    requires Bounded(s, 1)
    ensures !ShowsPageControls(isPdf, 1)
    ensures KeyPress(s, 1, key).page == 1
    ensures ShowsPageControls(isPdf, 2) <==> isPdf
  {
  }

  /** What the keyboard can change. */
  datatype ViewState = ViewState(page: int, quarters: int, closed: bool)

  predicate Bounded(s: ViewState, totalPages: int)
  {
    OnPage(s.page, totalPages) && InZoomRange(s.quarters)
  }

  /** `handleKeyPress`: the viewer's response to one key. */
  function KeyPress(s: ViewState, totalPages: int, key: string): (r: ViewState)
    ensures Bounded(s, totalPages) ==> Bounded(r, totalPages)
    ensures !Bound(key) ==> r == s
  {
    if key == "Escape" then s.(closed := true)
    else if key == "ArrowLeft" then s.(page := PrevPage(s.page))
    else if key == "ArrowRight" then s.(page := NextPage(s.page, totalPages))
    else if key == "+" || key == "=" then s.(quarters := ZoomIn(s.quarters))
    else if key == "-" then s.(quarters := ZoomOut(s.quarters))
    else if key == "0" then s.(quarters := InitialQuarters)
    else s
  }

  predicate Bound(key: string)
  {
    key in {"Escape", "ArrowLeft", "ArrowRight", "+", "=", "-", "0"}
  }

  /** The key map: each bound key moves exactly one thing, every other key
      moves nothing. */
  lemma KeyMap(s: ViewState, totalPages: int, key: string)
    ensures var t := KeyPress(s, totalPages, key);
      && (t.closed <==> s.closed || key == "Escape")
      && (t.page != s.page ==> key == "ArrowLeft" || key == "ArrowRight")
      && (key == "ArrowLeft" ==> t.page == PrevPage(s.page))
      && (key == "ArrowRight" ==> t.page == NextPage(s.page, totalPages))
      && (t.quarters != s.quarters ==> key in {"+", "=", "-", "0"})
      && (key == "+" || key == "=" ==> Scale(t.quarters) == RealMin(Scale(s.quarters) + 0.25, 3.0))
      && (key == "-" ==> Scale(t.quarters) == RealMax(Scale(s.quarters) - 0.25, 0.5))
      && (key == "0" ==> Scale(t.quarters) == 1.0)
      && (!Bound(key) ==> t == s)
  {
    ZoomMatchesScale(s.quarters);
  }

  /** Pressing the keys in order. */
  function Run(s: ViewState, totalPages: int, keys: seq<string>): ViewState
    decreases |keys|
  {
    if keys == [] then s else Run(KeyPress(s, totalPages, keys[0]), totalPages, keys[1..])
  }

  /** However many keys are pressed, the page stays within the document and the
      zoom within 0.5 to 3.0. */
  lemma {:induction false} RunStaysBounded(s: ViewState, totalPages: int, keys: seq<string>)
    requires Bounded(s, totalPages)
    ensures Bounded(Run(s, totalPages, keys), totalPages)
    decreases |keys|
  {
    if keys != [] {
      RunStaysBounded(KeyPress(s, totalPages, keys[0]), totalPages, keys[1..]);
    }
  }

  /** The viewer component's navigation state. */
  class Viewer {
    const isPdf: bool
    var currentPage: int
    var totalPages: int
    var quarters: int
    var closed: bool

    predicate Valid()
      reads this
    {
      Bounded(State(), totalPages)
    }

    function State(): ViewState
      reads this
    {
      ViewState(currentPage, quarters, closed)
    }

    constructor (sheet: Record)
      ensures isPdf == IsPdf(sheet)
      ensures State() == ViewState(1, InitialQuarters, false) && totalPages == 1
      ensures Valid()
    {
      isPdf := IsPdf(sheet);
      currentPage := 1;
      totalPages := 1;
      quarters := InitialQuarters;
      closed := false;
    }

    /** pdf.js reports the page count of the loaded document. */
    method DocumentLoaded(numPages: int)
      requires Valid() && isPdf && numPages >= 1 && currentPage == 1
      modifies this`totalPages
      ensures totalPages == numPages
      ensures Valid()
    {
      totalPages := numPages;
    }

    method HandleZoomIn()
      requires Valid()
      modifies this`quarters
      ensures Scale(quarters) == RealMin(Scale(old(quarters)) + 0.25, 3.0)
      ensures Valid()
    {
      quarters := ZoomIn(quarters);
      ZoomMatchesScale(old(quarters));
    }

    method HandleZoomOut()
      requires Valid()
      modifies this`quarters
      ensures Scale(quarters) == RealMax(Scale(old(quarters)) - 0.25, 0.5)
      ensures Valid()
    {
      quarters := ZoomOut(quarters);
      ZoomMatchesScale(old(quarters));
    }

    method HandleZoomReset()
      requires Valid()
      modifies this`quarters
      ensures Scale(quarters) == 1.0
      ensures Valid()
    {
      quarters := InitialQuarters;
    }

    method HandlePrevPage()
      requires Valid()
      modifies this`currentPage
      ensures currentPage == PrevPage(old(currentPage))
      ensures Valid()
    {
      currentPage := PrevPage(currentPage);
    }

    method HandleNextPage()
      requires Valid()
      modifies this`currentPage
      ensures currentPage == NextPage(old(currentPage), totalPages)
      ensures Valid()
    {
      currentPage := NextPage(currentPage, totalPages);
    }

    /** The window key listener: the state moves as `KeyPress` says and stays
        within bounds. */
    method HandleKeyPress(key: string)
      requires Valid()
      modifies this`currentPage, this`quarters, this`closed
      ensures State() == KeyPress(old(State()), totalPages, key)
      ensures Valid()
    {
      if key == "Escape" {
        closed := true;
      } else if key == "ArrowLeft" {
        HandlePrevPage();
      } else if key == "ArrowRight" {
        HandleNextPage();
      } else if key == "+" || key == "=" {
        HandleZoomIn();
      } else if key == "-" {
        HandleZoomOut();
      } else if key == "0" {
        HandleZoomReset();
      }
    }
  }
}
