/** The profile page's roster editor as a state machine over the roster, the
    edit-mode flag and the one browser-storage slot (key "groupProfileInfo").
    The slot holds the last saved roster or nothing; serialising a roster and
    parsing it back is taken to give the same roster. Confirmation dialogs are
    boolean inputs, and the data URI produced by reading an accepted file is
    an input of the upload step. */
module Profile {
  import opened Wrappers
  import opened Roster
  import opened Upload

  /** Everything the handlers read and write. */
  datatype PageState = PageState(members: seq<Member>, isEditing: bool, stored: Option<seq<Member>>)

  /** The roster that a read of the storage slot yields: the stored roster if
      there is one, the built-in default otherwise. */
  function Restored(stored: Option<seq<Member>>): (r: seq<Member>)
    ensures stored.Some? ==> r == stored.value
    ensures stored.None? ==> r == InitialMembers
  {
    stored.GetOr(InitialMembers)
  }

  /** A freshly rendered page: the default roster in view mode, before the
      mount effect has run. */
  function Initial(storage: Option<seq<Member>>): (s: PageState)
    ensures s.members == InitialMembers && !s.isEditing && s.stored == storage
  {
    PageState(InitialMembers, false, storage)
  }

  // ---------------------------------------------------------------------------
  // One step function per handler.

  /** The mount effect: a stored roster replaces the current one. */
  function MountStep(s: PageState): (r: PageState)
    ensures r.members == (if s.stored.Some? then s.stored.value else s.members)
    ensures r.isEditing == s.isEditing && r.stored == s.stored
  {
    match s.stored
    case Some(saved) => s.(members := saved)
    case None => s
  }

  /** The name, NIM and avatar handler: only the roster changes. */
  function InputChangeStep(s: PageState, index: int, u: FieldUpdate): (r: PageState)
    ensures r.isEditing == s.isEditing && r.stored == s.stored
  {
    s.(members := UpdateAt(s.members, index, u))
  }

  /** A picked file: an accepted one becomes member `index`'s avatar (as the
      data URI `dataUri` the file reads to); anything else leaves the page as
      it is. */
  function PhotoChangeStep(s: PageState, index: int, file: Option<File>, dataUri: string): (r: PageState)
    ensures Check(file) != Accepted ==> r == s
  {
    if Check(file) == Accepted then InputChangeStep(s, index, SetAvatar(Some(dataUri))) else s
  }

  /** Save: the current roster is written to storage and edit mode ends. */
  function SaveStep(s: PageState): (r: PageState)
    ensures r.members == s.members
  {
    PageState(s.members, false, Some(s.members))
  }

  /** Cancel: the roster is re-read from storage (the default if nothing was
      saved) and edit mode ends; storage is untouched. */
  function CancelStep(s: PageState): (r: PageState)
    ensures r.stored == s.stored
  {
    PageState(Restored(s.stored), false, s.stored)
  }

  /** Reset: when confirmed, the default roster in view mode with storage
      cleared, whatever the state was; when declined, nothing. */
  function ResetStep(s: PageState, confirmed: bool): (r: PageState)
    ensures confirmed ==> r == PageState(InitialMembers, false, None)
    ensures !confirmed ==> r == s
  {
    if confirmed then PageState(InitialMembers, false, None) else s
  }

  /** Remove-photo: when confirmed, member `index`'s avatar is cleared; when
      declined, nothing. */
  function RemovePhotoStep(s: PageState, index: int, confirmed: bool): (r: PageState)
    ensures confirmed ==> r == InputChangeStep(s, index, SetAvatar(None))
    ensures !confirmed ==> r == s
    ensures r.isEditing == s.isEditing && r.stored == s.stored
  {
    if confirmed then InputChangeStep(s, index, SetAvatar(None)) else s
  }

  /** The edit button: only the flag changes. */
  function EnterEditStep(s: PageState): (r: PageState)
    ensures r.isEditing
    ensures r.members == s.members && r.stored == s.stored
  {
    s.(isEditing := true)
  }

  // ---------------------------------------------------------------------------
  // Sequences of user actions.

  /** A user action on a mounted page. */
  datatype Event =
    | InputChange(index: int, update: FieldUpdate)
    | PhotoChange(index: int, file: Option<File>, dataUri: string)
    | Save
    | Cancel
    | Reset(confirmed: bool)
    | RemovePhoto(index: int, confirmed: bool)
    | EnterEdit

  /** Actions that edit the page without saving, cancelling or resetting. */
  predicate IsEdit(e: Event)
  {
    e.InputChange? || e.PhotoChange? || e.RemovePhoto? || e.EnterEdit?
  }

  function Step(s: PageState, e: Event): PageState
  {
    match e
    case InputChange(i, u) => InputChangeStep(s, i, u)
    case PhotoChange(i, f, uri) => PhotoChangeStep(s, i, f, uri)
    case Save => SaveStep(s)
    case Cancel => CancelStep(s)
    case Reset(c) => ResetStep(s, c)
    case RemovePhoto(i, c) => RemovePhotoStep(s, i, c)
    case EnterEdit => EnterEditStep(s)
  }

  /** The state after the actions `es`, in order. */
  function Run(s: PageState, es: seq<Event>): PageState
    decreases |es|
  {
    if es == [] then s else Run(Step(s, es[0]), es[1..])
  }

  // ---------------------------------------------------------------------------
  // Properties of single steps.

  /** Mounting yields the stored roster if there is one, otherwise the
      built-in default; it leaves the flag and storage alone. */
  lemma MountLoadsStorage(storage: Option<seq<Member>>)
    ensures MountStep(Initial(storage)).members == Restored(storage)
    ensures storage.None? ==> MountStep(Initial(storage)).members
                              == [Member("Defdava Haryadi", "21120123120024", None)]
    ensures !MountStep(Initial(storage)).isEditing
    ensures MountStep(Initial(storage)).stored == storage
  {
  }

  /** A field update keeps the roster's length and every other member, sets
      only the named field of member `index`, and ignores an index outside
      the roster. */
  lemma InputChangeFrame(s: PageState, index: int, u: FieldUpdate)
    ensures |InputChangeStep(s, index, u).members| == |s.members|
    ensures forall j :: 0 <= j < |s.members| && j != index ==>
      InputChangeStep(s, index, u).members[j] == s.members[j]
    ensures 0 <= index < |s.members| ==>
      InputChangeStep(s, index, u).members[index] == Apply(s.members[index], u)
    ensures !(0 <= index < |s.members|) ==> InputChangeStep(s, index, u) == s
  {
  }

  /** A rejected or missing file changes nothing; an accepted one is the
      avatar update of the input-change handler, so it changes only member
      `index`'s avatar, to the file's data URI, and an index outside the
      roster changes nothing. */
  lemma PhotoChangeFrame(s: PageState, index: int, file: Option<File>, dataUri: string)
    ensures Check(file) != Accepted ==> PhotoChangeStep(s, index, file, dataUri) == s
    ensures Check(file) == Accepted ==>
      PhotoChangeStep(s, index, file, dataUri) == InputChangeStep(s, index, SetAvatar(Some(dataUri)))
    ensures PhotoChangeStep(s, index, file, dataUri).isEditing == s.isEditing
    ensures PhotoChangeStep(s, index, file, dataUri).stored == s.stored
    ensures |PhotoChangeStep(s, index, file, dataUri).members| == |s.members|
    ensures forall j :: 0 <= j < |s.members| && j != index ==>
      PhotoChangeStep(s, index, file, dataUri).members[j] == s.members[j]
    ensures !(0 <= index < |s.members|) ==> PhotoChangeStep(s, index, file, dataUri) == s
    ensures Check(file) == Accepted && 0 <= index < |s.members| ==>
      var m := PhotoChangeStep(s, index, file, dataUri).members[index];
      m.avatar == Some(dataUri) && m.name == s.members[index].name && m.nim == s.members[index].nim
  {
  }

  /** Save stores exactly the current roster and leaves edit mode; the roster
      is unchanged. */
  lemma SaveStoresRoster(s: PageState)
    ensures SaveStep(s).stored == Some(s.members)
    ensures SaveStep(s).members == s.members
    ensures !SaveStep(s).isEditing
  {
  }

  /** Cancel leaves edit mode and brings back the stored roster; with nothing
      stored it falls back to the default, not to the roster seen at mount. */
  lemma CancelRestoresStorage(s: PageState)
    ensures CancelStep(s).members == Restored(s.stored)
    ensures s.stored.None? ==> CancelStep(s).members == InitialMembers
    ensures !CancelStep(s).isEditing
  {
  }

  /** Confirmed removal clears member `index`'s avatar and nothing else; a
      declined one changes nothing. */
  lemma RemovePhotoFrame(s: PageState, index: int, confirmed: bool)
    ensures !confirmed ==> RemovePhotoStep(s, index, confirmed) == s
    ensures RemovePhotoStep(s, index, confirmed).stored == s.stored
    ensures RemovePhotoStep(s, index, confirmed).isEditing == s.isEditing
    ensures |RemovePhotoStep(s, index, confirmed).members| == |s.members|
    ensures forall j :: 0 <= j < |s.members| && j != index ==>
      RemovePhotoStep(s, index, confirmed).members[j] == s.members[j]
    ensures confirmed && 0 <= index < |s.members| ==>
      RemovePhotoStep(s, index, confirmed).members[index]
      == s.members[index].(avatar := None)
  {
  }

  /** The edit button flips the flag on and has no other effect. */
  lemma EnterEditOnlySetsFlag(s: PageState)
    ensures EnterEditStep(s).isEditing
    ensures EnterEditStep(s).members == s.members && EnterEditStep(s).stored == s.stored
  {
  }

  /** Only Save and a confirmed Reset touch storage. */
  lemma StorageWrittenOnlyBySaveOrReset(s: PageState, e: Event)
    ensures Step(s, e).stored != s.stored ==> e.Save? || (e.Reset? && e.confirmed)
  {
  }

  // ---------------------------------------------------------------------------
  // Properties of several steps.

  /** Save then Cancel keeps the roster: the whole state is the one before,
      out of edit mode, with the roster stored. */
  lemma SaveThenCancel(s: PageState)
    ensures CancelStep(SaveStep(s)) == PageState(s.members, false, Some(s.members))
    ensures CancelStep(SaveStep(s)).members == s.members
  {
  }

  /** A saved roster survives a reload: a new page over the saved storage
      mounts with exactly that roster. */
  lemma SaveThenRemount(s: PageState)
    ensures MountStep(Initial(SaveStep(s).stored)).members == s.members
  {
  }

  /** After a confirmed reset a reload shows the default roster. */
  lemma ResetThenRemount(s: PageState)
    ensures MountStep(Initial(ResetStep(s, true).stored)).members == InitialMembers
  {
  }

  /** Mounting and cancelling read storage the same way. */
  lemma MountAgreesWithCancel(s: PageState)
    ensures MountStep(Initial(s.stored)).members == CancelStep(s).members
  {
  }

  /** Editing actions never touch storage. */
  lemma {:induction false} EditsKeepStorage(s: PageState, es: seq<Event>)
    requires forall k :: 0 <= k < |es| ==> IsEdit(es[k])
    ensures Run(s, es).stored == s.stored
    decreases |es|
  {
    if es != [] {
      EditsKeepStorage(Step(s, es[0]), es[1..]);
    }
  }

  /** Editing actions never change the number of members. */
  lemma {:induction false} EditsKeepLength(s: PageState, es: seq<Event>)
    requires forall k :: 0 <= k < |es| ==> IsEdit(es[k])
    ensures |Run(s, es).members| == |s.members|
    decreases |es|
  {
    if es != [] {
      EditsKeepLength(Step(s, es[0]), es[1..]);
    }
  }

  /** Cancel discards any number of unsaved edits: cancelling after them is
      the same as cancelling before them. */
  lemma CancelDiscardsEdits(s: PageState, es: seq<Event>)
    requires forall k :: 0 <= k < |es| ==> IsEdit(es[k])
    ensures CancelStep(Run(s, es)) == CancelStep(s)
  {
    EditsKeepStorage(s, es);
  }

  /** Save, then any edits, then Cancel: the roster is the one that was saved. */
  lemma CancelRestoresLastSave(s: PageState, es: seq<Event>)
    requires forall k :: 0 <= k < |es| ==> IsEdit(es[k])
    ensures CancelStep(Run(SaveStep(s), es)).members == s.members
  {
    CancelDiscardsEdits(SaveStep(s), es);
  }

  // ---------------------------------------------------------------------------
  // The component itself: its state lives in fields that the handlers
  // overwrite.

  class ProfilePage {
    var members: seq<Member>
    var isEditing: bool
    var stored: Option<seq<Member>>

    /** The page's state as a value. */
    function State(): PageState
      reads this
    {
      PageState(members, isEditing, stored)
    }

    /** First render: the default roster in view mode over the given storage. */
    constructor (storage: Option<seq<Member>>)
      ensures State() == Initial(storage)
    {
      members := InitialMembers;
      isEditing := false;
      stored := storage;
    }

    /** The mount effect. */
    method Mount()
      modifies this
      ensures State() == MountStep(old(State()))
    {
      match stored
      case Some(saved) => members := saved;
      case None =>
    }

    method InputChange(index: int, u: FieldUpdate)
      modifies this
      ensures State() == InputChangeStep(old(State()), index, u)
    {
      members := UpdateAt(members, index, u);
    }

    /** A file pick; `dataUri` is what reading the file produces. Returns which
        guard decided, so that the caller can raise the matching alert. */
    method PhotoChange(index: int, file: Option<File>, dataUri: string) returns (d: Decision)
      modifies this
      ensures d == Check(file)
      ensures State() == PhotoChangeStep(old(State()), index, file, dataUri)
    {
      d := Check(file);
      if d == Accepted {
        InputChange(index, SetAvatar(Some(dataUri)));
      }
    }

    method Save()
      modifies this
      ensures State() == SaveStep(old(State()))
    {
      stored := Some(members);
      isEditing := false;
    }

    method Cancel()
      modifies this
      ensures State() == CancelStep(old(State()))
    {
      members := Restored(stored);
      isEditing := false;
    }

    method Reset(confirmed: bool)
      modifies this
      ensures State() == ResetStep(old(State()), confirmed)
    {
      if confirmed {
        members := InitialMembers;
        stored := None;
        isEditing := false;
      }
    }

    method RemovePhoto(index: int, confirmed: bool)
      modifies this
      ensures State() == RemovePhotoStep(old(State()), index, confirmed)
    {
      if confirmed {
        InputChange(index, SetAvatar(None));
      }
    }

    method EnterEdit()
      modifies this
      ensures State() == EnterEditStep(old(State()))
    {
      isEditing := true;
    }
  }

  /** A session on the object: enter edit mode, change member 0's name, pick
      a photo and save; then edit the NIM and cancel. The page ends in view
      mode with the saved roster, which is also what storage holds. */
  method EditSaveEditCancel(p: ProfilePage, name: string, file: Option<File>, uri: string)
    modifies p
    ensures var edited := PhotoChangeStep(InputChangeStep(EnterEditStep(old(p.State())), 0, SetName(name)), 0, file, uri);
            p.State() == PageState(edited.members, false, Some(edited.members))
  {
    p.EnterEdit();
    p.InputChange(0, SetName(name));
    var d := p.PhotoChange(0, file, uri);
    p.Save();
    p.EnterEdit();
    p.InputChange(0, SetNim(""));
    p.Cancel();
  }
}
