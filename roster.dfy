/** The group roster: its member records, the built-in default roster, and the
    positional field update that the profile page applies on every keystroke,
    photo upload and photo removal. */
module Roster {
  import opened Wrappers

  /** One roster entry: display name, student number (NIM) and an avatar that
      is either a data URI or absent. Members are identified by position only. */
  datatype Member = Member(name: string, nim: string, avatar: Option<string>)

  /** The roster shown when nothing has been stored: one member, no avatar. */
  const InitialMembers: seq<Member> := [Member("Defdava Haryadi", "21120123120024", None)]

  /** A field name together with its new value. The name and NIM inputs pass
      their text; the upload path passes a data URI and the remove-photo path
      passes null. */
  datatype FieldUpdate =
    | SetName(name: string)
    | SetNim(nim: string)
    | SetAvatar(avatar: Option<string>)

  /** The object spread `{ ...m, [field]: value }`: the named field takes the
      new value and the other two keep theirs. */
  function Apply(m: Member, u: FieldUpdate): (r: Member)
    ensures r.name == (if u.SetName? then u.name else m.name)
    ensures r.nim == (if u.SetNim? then u.nim else m.nim)
    ensures r.avatar == (if u.SetAvatar? then u.avatar else m.avatar)
  {
    match u
    case SetName(v) => m.(name := v)
    case SetNim(v) => m.(nim := v)
    case SetAvatar(v) => m.(avatar := v)
  }

  /** The roster rebuilt by mapping over every position: the member whose
      position equals `index` gets the update, every other member is kept.
      The comparison is a plain equality test, so an index outside the roster
      (negative or too large) matches no position. */
  function UpdateAt(ms: seq<Member>, index: int, u: FieldUpdate): (r: seq<Member>)
    ensures |r| == |ms|
    ensures forall j :: 0 <= j < |ms| && j != index ==> r[j] == ms[j]
    ensures 0 <= index < |ms| ==> r[index] == Apply(ms[index], u)
    ensures !(0 <= index < |ms|) ==> r == ms
    decreases |ms|
  {
    if ms == [] then []
    else
      var last := |ms| - 1;
      UpdateAt(ms[..last], index, u) + [if last == index then Apply(ms[last], u) else ms[last]]
  }

  /** Writing the same value into the same field twice is the same as writing
      it once: repeated change events with an unchanged input are harmless. */
  lemma UpdateAtIdempotent(ms: seq<Member>, index: int, u: FieldUpdate)
    ensures UpdateAt(UpdateAt(ms, index, u), index, u) == UpdateAt(ms, index, u)
  {
  }

  /** Updates at two different positions do not interfere: applying them in
      either order gives the same roster. */
  lemma UpdateAtCommutes(ms: seq<Member>, i: int, u: FieldUpdate, k: int, w: FieldUpdate)
    requires i != k
    ensures UpdateAt(UpdateAt(ms, i, u), k, w) == UpdateAt(UpdateAt(ms, k, w), i, u)
  {
  }
}
