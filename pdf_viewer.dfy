/** The in-page PDF reader (components/PdfViewer.tsx): page navigation and
    zoom clamps, the load effect with its error states, and the render
    effect that cancels the previous render task before starting a new one.
    The zoom factor is kept in integer tenths (12 stands for 1.2). */
module PdfViewer {
  import opened Types

  const LIBRARY_MISSING_ERROR := "مكتبة PDF لم يتم تحميلها بشكل صحيح. تأكد من اتصالك بالإنترنت."
  const LOAD_FAILED_ERROR := "تعذر تحميل ملف القصة. قد يكون الرابط تالفاً أو محظوراً."

  /** Zoom factors in tenths. */
  const INITIAL_SCALE: nat := 12
  const MIN_SCALE: nat := 5
  const MAX_SCALE: nat := 30
  const SCALE_STEP: nat := 2

  function Min(a: int, b: int): int { if a <= b then a else b }
  function Max(a: int, b: int): int { if a >= b then a else b }

  // ---------------------------------------------------------------------
  // Page navigation

  /** `Math.min(Math.max(1, prev + offset), pageCount)`. */
  function ChangePage(prev: int, offset: int, pageCount: int): (r: int)
    ensures pageCount >= 1 ==> 1 <= r <= pageCount
    ensures 1 <= prev + offset <= pageCount ==> r == prev + offset
    ensures prev + offset < 1 <= pageCount ==> r == 1
    ensures prev + offset > pageCount ==> r == pageCount
    ensures pageCount < 1 ==> r == pageCount
  {
    Min(Max(1, prev + offset), pageCount)
  }

  /** The "previous page" button is disabled on the first page. */
  predicate PrevDisabled(pageNum: int) { pageNum <= 1 }

  /** The "next page" button is disabled on the last page. */
  predicate NextDisabled(pageNum: int, pageCount: int) { pageNum >= pageCount }

  /** An enabled button moves exactly one page. */
  lemma EnabledButtonsMoveOnePage(pageNum: int, pageCount: int)
    requires 1 <= pageNum <= pageCount
    ensures !PrevDisabled(pageNum) ==> ChangePage(pageNum, -1, pageCount) == pageNum - 1
    ensures !NextDisabled(pageNum, pageCount) ==> ChangePage(pageNum, 1, pageCount) == pageNum + 1
    ensures PrevDisabled(pageNum) ==> ChangePage(pageNum, -1, pageCount) == pageNum
    ensures NextDisabled(pageNum, pageCount) ==> ChangePage(pageNum, 1, pageCount) == pageNum
  {
  }

  /** The page reached after a series of `changePage` calls. */
  function ApplyPageChanges(pageNum: int, offsets: seq<int>, pageCount: int): int
    decreases |offsets|
  {
    if offsets == [] then pageNum
    else ApplyPageChanges(ChangePage(pageNum, offsets[0], pageCount), offsets[1..], pageCount)
  }

  /** Once a document with pages is open, no sequence of page changes
      leaves the range 1..pageCount. */
  lemma {:induction false} PageStaysInRange(pageNum: int, offsets: seq<int>, pageCount: int)
    requires 1 <= pageNum <= pageCount
    ensures 1 <= ApplyPageChanges(pageNum, offsets, pageCount) <= pageCount
    decreases |offsets|
  {
    if offsets != [] {
      PageStaysInRange(ChangePage(pageNum, offsets[0], pageCount), offsets[1..], pageCount);
    }
  }

  // ---------------------------------------------------------------------
  // Zoom

  /** `Math.max(0.5, s - 0.2)`. */
  function ZoomOut(scale: int): (r: int)
    ensures r >= MIN_SCALE
    ensures scale - SCALE_STEP >= MIN_SCALE ==> r == scale - SCALE_STEP
    ensures scale - SCALE_STEP < MIN_SCALE ==> r == MIN_SCALE
  {
    Max(MIN_SCALE, scale - SCALE_STEP)
  }

  /** `Math.min(3.0, s + 0.2)`. */
  function ZoomIn(scale: int): (r: int)
    ensures r <= MAX_SCALE
    ensures scale + SCALE_STEP <= MAX_SCALE ==> r == scale + SCALE_STEP
    ensures scale + SCALE_STEP > MAX_SCALE ==> r == MAX_SCALE
  {
    Min(MAX_SCALE, scale + SCALE_STEP)
  }

  /** The scale after a series of button presses; `true` zooms in. */
  function ApplyZooms(scale: int, presses: seq<bool>): int
    decreases |presses|
  {
    if presses == [] then scale
    else ApplyZooms(if presses[0] then ZoomIn(scale) else ZoomOut(scale), presses[1..])
  }

  /** From the initial 1.2, any series of zoom presses stays in 0.5..3.0. */
  lemma {:induction false} ZoomStaysInRange(scale: int, presses: seq<bool>)
    requires MIN_SCALE <= scale <= MAX_SCALE
    ensures MIN_SCALE <= ApplyZooms(scale, presses) <= MAX_SCALE
    decreases |presses|
  {
    if presses != [] {
      ZoomStaysInRange(if presses[0] then ZoomIn(scale) else ZoomOut(scale), presses[1..]);
    }
  }

  // ---------------------------------------------------------------------
  // Component state

  /** A started `page.render(...)`; `cancelled` records a `cancel()` call. */
  class RenderTask {
    const pageNum: int
    const scale: nat
    var cancelled: bool

    constructor (pageNum: int, scale: nat)
      ensures this.pageNum == pageNum && this.scale == scale && !cancelled
    {
      this.pageNum := pageNum;
      this.scale := scale;
      cancelled := false;
    }

    method Cancel()
      modifies this
      ensures cancelled
    {
      cancelled := true;
    }
  }

  /** What the component renders. */
  datatype Screen = Spinner | ErrorMessage(message: string) | Pages

  class Viewer {
    const url: string
    /** The open document, represented by its number of pages. */
    var pdfDoc: Option<nat>
    var pageNum: int
    var pageCount: nat
    var scale: nat
    var loading: bool
    var error: Option<string>
    /** `renderTaskRef.current`. */
    var renderTask: RenderTask?
    /** Every task started so far, oldest first. */
    ghost var tasks: seq<RenderTask>

    /** The scale is within its clamps; the ref holds the newest task and
        every earlier task has been cancelled. */
    ghost predicate Valid()
      reads this, tasks
    {
      && MIN_SCALE <= scale <= MAX_SCALE
      && (tasks == [] ==> renderTask == null)
      && (tasks != [] ==> renderTask == tasks[|tasks| - 1])
      && (forall i | 0 <= i < |tasks| - 1 :: tasks[i].cancelled)
    }

    function Shown(): Screen
      reads this
    {
      if loading then Spinner
      else if error.Some? then ErrorMessage(error.value)
      else Pages
    }

    constructor (url: string)
      ensures Valid() && this.url == url && tasks == []
      ensures pdfDoc == None && pageNum == 1 && pageCount == 0 && scale == INITIAL_SCALE
      ensures loading && error == None && renderTask == null
    {
      this.url := url;
      pdfDoc := None;
      pageNum := 1;
      pageCount := 0;
      scale := INITIAL_SCALE;
      loading := true;
      error := None;
      renderTask := null;
      tasks := [];
    }

    /** The load effect. `libraryAvailable` says whether the PDF library is
        present; `document` is the outcome of `getDocument(url)`: the page
        count of the opened document, or None when loading threw. */
    method LoadPdf(libraryAvailable: bool, document: Option<nat>)
      requires Valid()
      modifies this`pdfDoc, this`pageCount, this`loading, this`error
      ensures Valid()
      ensures url == "" ==> unchanged(this)
      ensures url != "" ==> !loading
      ensures url != "" && !libraryAvailable ==>
        error == Some(LIBRARY_MISSING_ERROR) && pdfDoc == old(pdfDoc) && pageCount == old(pageCount)
        && Shown() == ErrorMessage(LIBRARY_MISSING_ERROR)
      ensures url != "" && libraryAvailable && document.None? ==>
        error == Some(LOAD_FAILED_ERROR) && pdfDoc == old(pdfDoc) && pageCount == old(pageCount)
        && Shown() == ErrorMessage(LOAD_FAILED_ERROR)
      ensures url != "" && libraryAvailable && document.Some? ==>
        error == None && pdfDoc == document && pageCount == document.value && Shown() == Pages
    {
      if url == "" {
        return;
      }
      if !libraryAvailable {
        error := Some(LIBRARY_MISSING_ERROR);
        loading := false;
        return;
      }
      loading := true;
      error := None;
      match document {
        case Some(numPages) =>
          pdfDoc := Some(numPages);
          pageCount := numPages;
          loading := false;
        case None =>
          error := Some(LOAD_FAILED_ERROR);
          loading := false;
      }
    }

    /** The render effect, run after the document, page or scale changes.
        `canvasPresent` and `contextPresent` say whether the canvas element
        and its 2D context exist; `getPage` rejects a page outside the
        document, which the effect swallows. */
    method RenderPage(canvasPresent: bool, contextPresent: bool) returns (started: bool)
      requires Valid()
      modifies this`renderTask, this`tasks, renderTask
      ensures Valid()
      ensures started <==>
        pdfDoc.Some? && canvasPresent && 1 <= pageNum <= pdfDoc.value && contextPresent
      ensures !started ==> renderTask == old(renderTask) && tasks == old(tasks)
      ensures !started && old(renderTask) != null ==> renderTask.cancelled == old(renderTask.cancelled)
      ensures started ==>
        && fresh(renderTask) && !renderTask.cancelled
        && renderTask.pageNum == pageNum && renderTask.scale == scale
        && tasks == old(tasks) + [renderTask]
        && (old(renderTask) != null ==> old(renderTask).cancelled)
    {
      started := false;
      if pdfDoc.None? || !canvasPresent {
        return;
      }
      if pageNum < 1 || pageNum > pdfDoc.value {
        return;
      }
      if !contextPresent {
        return;
      }
      if renderTask != null {
        renderTask.Cancel();
      }
      var task := new RenderTask(pageNum, scale);
      renderTask := task;
      tasks := tasks + [task];
      started := true;
    }

    method ChangePageBy(offset: int)
      modifies this`pageNum
      ensures pageNum == ChangePage(old(pageNum), offset, pageCount)
    {
      pageNum := ChangePage(pageNum, offset, pageCount);
    }

    method ZoomInPressed()
      requires Valid()
      modifies this`scale
      ensures Valid() && scale == ZoomIn(old(scale))
    {
      scale := ZoomIn(scale);
    }

    method ZoomOutPressed()
      requires Valid()
      modifies this`scale
      ensures Valid() && scale == ZoomOut(old(scale))
    {
      scale := ZoomOut(scale);
    }
  }
}
