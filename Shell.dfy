/**
  The application shell (App.tsx): which overlay is open, which tab is
  active, which notebook is selected, and the in-memory notebook list.
*/
module Shell {
  import opened Wrappers
  import opened Types
  import opened Constants
  import JsText
  import StampBoard
  import LightMap

  datatype Tab = MY | SHARED

  /** Where `notebooks.find(n => n.id === id)` stops: the first notebook with that id. */
  function FindIndex(notebooks: seq<Notebook>, id: string): (r: Option<nat>)
    ensures r.Some? ==> r.value < |notebooks| && notebooks[r.value].id == id
    ensures r.Some? ==> forall j :: 0 <= j < r.value ==> notebooks[j].id != id
    ensures r.None? ==> forall j :: 0 <= j < |notebooks| ==> notebooks[j].id != id
  {
    if notebooks == [] then None
    else if notebooks[0].id == id then Some(0)
    else
      match FindIndex(notebooks[1..], id)
      case None => None
      case Some(k) => Some(k + 1)
  }

  /** Appending a notebook does not move the first match of an id that is already present. */
  lemma {:induction false} FindIndexAppend(notebooks: seq<Notebook>, n: Notebook, id: string)
    requires FindIndex(notebooks, id).Some?
    ensures FindIndex(notebooks + [n], id) == FindIndex(notebooks, id)
  {
    if notebooks[0].id != id {
      assert (notebooks + [n])[1..] == notebooks[1..] + [n];
      FindIndexAppend(notebooks[1..], n, id);
    }
  }

  /** `notebooks.find(n => n.id === selectedNotebookId)`. */
  function FindNotebook(notebooks: seq<Notebook>, selected: Option<string>): (r: Option<Notebook>)
    ensures r.Some? <==> selected.Some? && FindIndex(notebooks, selected.value).Some?
    ensures r.Some? ==> r.value == notebooks[FindIndex(notebooks, selected.value).value]
  {
    if selected.None? then None
    else
      match FindIndex(notebooks, selected.value)
      case None => None
      case Some(k) => Some(notebooks[k])
  }

  /** The base view: the note detail, or the gallery. */
  datatype View = Gallery | Detail(notebook: Notebook)

  /**
    `selectedNotebookId && selectedNotebook ? <NoteDetailView/> : <gallery/>`.
    The detail view shows exactly when a non-empty id is selected and some
    notebook has it; the first such notebook is shown. A dangling id shows the
    gallery.
  */
  function ViewOf(selected: Option<string>, notebooks: seq<Notebook>): (v: View)
    ensures v.Detail? <==> Truthy(selected) && FindIndex(notebooks, selected.value).Some?
    ensures v.Detail? ==> v.notebook == notebooks[FindIndex(notebooks, selected.value).value]
    ensures v.Detail? ==> v.notebook.id == selected.value
  {
    var found := FindNotebook(notebooks, selected);
    if Truthy(selected) && found.Some? then Detail(found.value) else Gallery
  }

  /** The title and cover every new notebook gets. */
  const NEW_TITLE := "새로운 과목"
  const NEW_COVER := "bg-green-200"

  /**
    `handleCreateNotebook`'s record. `nowMillis` stands for `Date.now()` and
    `isoTimestamp` for `new Date().toISOString()`; the date is the part of the
    timestamp before its first 'T'. Nothing here makes the id unique.
  */
  function NewNotebook(nowMillis: nat, isoTimestamp: string): (n: Notebook)
    ensures n.title == NEW_TITLE && n.coverColor == NEW_COVER
    ensures n.id != "" && n.id == JsText.DecimalString(nowMillis)
    ensures n.lastEdited <= isoTimestamp && 'T' !in n.lastEdited
    ensures |n.lastEdited| < |isoTimestamp| ==> isoTimestamp[|n.lastEdited|] == 'T'
  {
    Notebook(JsText.DecimalString(nowMillis), NEW_TITLE, NEW_COVER, JsText.BeforeFirst(isoTimestamp, 'T'))
  }

  /** For a timestamp such as "2024-03-05T10:20:30.000Z", the date part is kept. */
  lemma NewNotebookDate(nowMillis: nat)
    ensures NewNotebook(nowMillis, "2024-03-05T10:20:30.000Z").lastEdited == "2024-03-05"
  {
    JsText.BeforeFirstUnique("2024-03-05T10:20:30.000Z", 'T', "2024-03-05");
  }

  /**
    Ids come from the clock and nothing checks them: two notebooks created in
    the same millisecond share an id, and then a click on the later card shows
    the earlier notebook, the first match.
  */
  lemma SharedIdShowsFirst(notebooks: seq<Notebook>, j: nat, k: nat)
    requires j < k < |notebooks| && notebooks[j].id == notebooks[k].id && notebooks[k].id != ""
    ensures ViewOf(Some(notebooks[k].id), notebooks).Detail?
    ensures ViewOf(Some(notebooks[k].id), notebooks).notebook == notebooks[FindIndex(notebooks, notebooks[k].id).value]
    ensures FindIndex(notebooks, notebooks[k].id).value <= j < k
  {
    assert FindIndex(notebooks, notebooks[k].id).Some?;
  }

  /** What the gallery's main area shows. */
  datatype MainArea =
    | MyNotes(cards: seq<Notebook>, emptyHint: bool)
    | SharedPlaceholder

  /**
    The container shows either the note view alone, or the gallery: the
    sidebar, the stamp board, the main area and the floating map and player
    buttons.
  */
  datatype Base =
    | NoteView(notebook: Notebook)
    | GalleryView(main: MainArea, board: StampBoard.Board, discSpinning: bool)

  /** The overlays are rendered beside the container whatever it shows. */
  datatype Screen = Screen(base: Base, mapOpen: bool, soundOpen: bool)

  /** The state hooks of `App`. */
  class App {
    var activeModal: ModalType
    var activeTab: Tab
    var selectedNotebookId: Option<string>
    var notebooks: seq<Notebook>
    const stamps: seq<Stamp>

    /**
      The list only grows from the seed notebooks, every id is non-empty, the
      selection (when set) names a listed notebook, and `CREATE_NOTEBOOK` is
      never the open modal.
    */
    predicate Valid()
      reads this
    {
      && INITIAL_NOTEBOOKS <= notebooks
      && (forall k :: 0 <= k < |notebooks| ==> notebooks[k].id != "")
      && (selectedNotebookId.Some? ==> FindIndex(notebooks, selectedNotebookId.value).Some?)
      && activeModal != CREATE_NOTEBOOK
      && stamps == INITIAL_STAMPS
    }

    /** No overlay, the "my notes" tab, no selection, the seed notebooks and stamps. */
    constructor ()
      ensures Valid()
      ensures activeModal == NONE && activeTab == MY && selectedNotebookId == None
      ensures notebooks == INITIAL_NOTEBOOKS && stamps == INITIAL_STAMPS
    {
      activeModal := NONE;
      activeTab := MY;
      selectedNotebookId := None;
      notebooks := INITIAL_NOTEBOOKS;
      stamps := INITIAL_STAMPS;
    }

    function CurrentView(): View
      reads this
    {
      ViewOf(selectedNotebookId, notebooks)
    }

    /** The new-notebook tile: appends one notebook at the end; nothing else changes. */
    method CreateNotebook(nowMillis: nat, isoTimestamp: string)
      requires Valid()
      modifies this
      ensures Valid()
      ensures notebooks == old(notebooks) + [NewNotebook(nowMillis, isoTimestamp)]
      ensures activeModal == old(activeModal) && activeTab == old(activeTab)
      ensures selectedNotebookId == old(selectedNotebookId)
      ensures CurrentView() == old(CurrentView())
    {
      var created := NewNotebook(nowMillis, isoTimestamp);
      if selectedNotebookId.Some? {
        FindIndexAppend(notebooks, created, selectedNotebookId.value);
      }
      notebooks := notebooks + [created];
    }

    /** A click on card `k` of the grid selects that notebook, which then shows in the detail view. */
    method SelectNotebook(k: nat)
      requires Valid()
      requires k < |notebooks|
      modifies this
      ensures Valid()
      ensures selectedNotebookId == Some(old(notebooks)[k].id)
      ensures notebooks == old(notebooks) && activeModal == old(activeModal) && activeTab == old(activeTab)
      ensures CurrentView().Detail? && CurrentView().notebook.id == old(notebooks)[k].id
    {
      selectedNotebookId := Some(notebooks[k].id);
      assert FindIndex(notebooks, notebooks[k].id).Some?;
    }

    /** The detail view's home button: clears the selection, so the gallery shows again. */
    method GoBack()
      requires Valid()
      modifies this
      ensures Valid()
      ensures selectedNotebookId == None && CurrentView() == Gallery
      ensures notebooks == old(notebooks) && activeModal == old(activeModal) && activeTab == old(activeTab)
    {
      selectedNotebookId := None;
    }

    /** The sidebar's tab buttons. */
    method ShowTab(tab: Tab)
      requires Valid()
      modifies this
      ensures Valid()
      ensures activeTab == tab
      ensures notebooks == old(notebooks) && activeModal == old(activeModal) && selectedNotebookId == old(selectedNotebookId)
    {
      activeTab := tab;
    }

    /** The map button: the map becomes the one open overlay, whatever was open before. */
    method OpenMap()
      requires Valid()
      modifies this
      ensures Valid()
      ensures activeModal == MAP
      ensures notebooks == old(notebooks) && activeTab == old(activeTab) && selectedNotebookId == old(selectedNotebookId)
    {
      activeModal := MAP;
    }

    /** The player button: the sound player becomes the one open overlay, whatever was open before. */
    method OpenSound()
      requires Valid()
      modifies this
      ensures Valid()
      ensures activeModal == SOUND
      ensures notebooks == old(notebooks) && activeTab == old(activeTab) && selectedNotebookId == old(selectedNotebookId)
    {
      activeModal := SOUND;
    }

    /** Either overlay's `onClose`: no overlay is open afterwards. */
    method CloseModal()
      requires Valid()
      modifies this
      ensures Valid()
      ensures activeModal == NONE
      ensures notebooks == old(notebooks) && activeTab == old(activeTab) && selectedNotebookId == old(selectedNotebookId)
    {
      activeModal := NONE;
    }
  }

  /**
    The shell as drawn from its state: the note view or the gallery, and
    which overlay is open.
  */
  function Render(activeModal: ModalType, activeTab: Tab, selected: Option<string>, notebooks: seq<Notebook>, stamps: seq<Stamp>): (s: Screen)
    ensures s.base.NoteView? <==> ViewOf(selected, notebooks).Detail?
    ensures s.base.NoteView? ==> s.base.notebook == ViewOf(selected, notebooks).notebook
    ensures !(s.mapOpen && s.soundOpen)
    ensures s.mapOpen <==> activeModal == MAP
    ensures s.soundOpen <==> activeModal == SOUND
    ensures s.base.GalleryView? ==> (s.base.discSpinning <==> s.soundOpen)
    ensures s.base.GalleryView? ==> (s.base.main.MyNotes? <==> activeTab == MY)
    ensures s.base.GalleryView? && s.base.main.MyNotes? ==>
      s.base.main.cards == notebooks && (s.base.main.emptyHint <==> notebooks == [])
    ensures s.base.GalleryView? ==>
      s.base.board.achieved == StampBoard.AchievedCount(stamps) && s.base.board.total == 10
  {
    var base := match ViewOf(selected, notebooks)
      case Detail(notebook) => NoteView(notebook)
      case Gallery =>
        var main := if activeTab == MY then MyNotes(notebooks, |notebooks| == 0) else SharedPlaceholder;
        GalleryView(main, StampBoard.Render(stamps), activeModal == SOUND);
    Screen(base, activeModal == MAP, activeModal == SOUND)
  }

  /**
    In a valid shell the note view shows exactly when a notebook is selected;
    in the gallery the "no notes yet" hint never shows and the board reads
    3 / 10.
  */
  lemma ValidShellScreen(activeModal: ModalType, activeTab: Tab, selected: Option<string>, notebooks: seq<Notebook>)
    requires INITIAL_NOTEBOOKS <= notebooks
    requires forall k :: 0 <= k < |notebooks| ==> notebooks[k].id != ""
    requires selected.Some? ==> FindIndex(notebooks, selected.value).Some?
    ensures Render(activeModal, activeTab, selected, notebooks, INITIAL_STAMPS).base.NoteView? <==> selected.Some?
    ensures Render(activeModal, activeTab, selected, notebooks, INITIAL_STAMPS).base.GalleryView? ==>
      && (Render(activeModal, activeTab, selected, notebooks, INITIAL_STAMPS).base.main.MyNotes? ==>
            !Render(activeModal, activeTab, selected, notebooks, INITIAL_STAMPS).base.main.emptyHint)
      && Render(activeModal, activeTab, selected, notebooks, INITIAL_STAMPS).base.board.achieved == 3
  {
    StampBoard.InitialBoard();
    if selected.Some? {
      var k := FindIndex(notebooks, selected.value).value;
      assert notebooks[k].id == selected.value;
    }
    assert |notebooks| >= |INITIAL_NOTEBOOKS| == 2;
  }

  /**
    The shell never passes a key to the map, so the open map always shows
    the "key needed" text and no lights.
  */
  lemma MapAsWired(isOpen: bool, users: seq<UserLocation>)
    ensures LightMap.Render(isOpen, None, users) == if isOpen then Some(LightMap.MapView(LightMap.KeyNeeded, [], false)) else None
  {
  }
}
