/**
  Reassembly of concatenated inbound messages (internal/inbox/service.go and
  types.go; sections 9.2.3.24.1 and 9.2.3.24.8 of 3GPP TS 23.040), as values: the
  group of one key is a function of the log of what happened to it.
 */
module Reassembly {
  import opened Collections
  import opened Options

  // inboundMaxGroups
  const MAX_GROUPS: nat := 512

  datatype ConcatRef = ConcatRef(segments: int, sequence: int, ref: int, refWidth: int)

  datatype Sender = Sender(text: string)

  datatype InboundPart = InboundPart(
    sender: Sender,
    receivedAt: int,
    timestampValid: bool,
    content: string,
    port: nat,
    ported: bool,
    concat: Option<ConcatRef>)

  datatype Key = Key(sender: Sender, refWidth: int, ref: int)

  datatype Group = Group(segments: int, firstAt: int, parts: map<int, InboundPart>)

  datatype InboundMessage = InboundMessage(
    sender: Sender,
    content: string,
    ported: bool,
    port: nat,
    receivedAt: int,
    timestampValid: bool,
    concat: Option<ConcatRef>)

  /** A part that names a concatenation. */
  type Piece = p: InboundPart | p.concat.Some?
    witness InboundPart(Sender(""), 0, false, "", 0, false, Some(ConcatRef(1, 1, 0, 8)))

  function KeyOf(p: Piece): Key {
    Key(p.sender, p.concat.value.refWidth, p.concat.value.ref)
  }

  /** Parts belong together if and only if they agree in sender, width and reference. */
  lemma SameKeyIff(p: Piece, q: Piece)
    ensures KeyOf(p) == KeyOf(q) <==>
              && p.sender == q.sender
              && p.concat.value.refWidth == q.concat.value.refWidth && p.concat.value.ref == q.concat.value.ref
  {
  }

  /** The sequence numbers a message of this many segments is made of. The code reads
      part 1 for the message head even when the announced count is not positive. */
  predicate Needed(segments: int, sequence: int) {
    1 <= sequence <= segments || sequence == 1
  }

  ghost predicate Complete(g: Group) {
    forall sequence :: Needed(g.segments, sequence) ==> sequence in g.parts
  }

  /** The contents of parts 1..n, in sequence order. */
  function Joined(parts: map<int, InboundPart>, n: int): string
    requires forall sequence :: 1 <= sequence <= n ==> sequence in parts
    decreases n
  {
    if n <= 0 then "" else Joined(parts, n - 1) + parts[n].content
  }

  ghost function Assembled(g: Group): InboundMessage
    requires Complete(g)
  {
    assert Needed(g.segments, 1);
    assert forall sequence :: 1 <= sequence <= g.segments ==> Needed(g.segments, sequence);
    var first := g.parts[1];
    InboundMessage(first.sender, Joined(g.parts, g.segments), first.ported, first.port,
                   first.receivedAt, first.timestampValid, first.concat)
  }

  // ----- the log -----

  /** A concatenated part arrived, or a live group was given up (timeout, capacity, shutdown). */
  datatype Fact = Arrived(part: Piece, at: int) | Dropped(key: Key)

  predicate Concerns(f: Fact, key: Key) {
    match f
    case Arrived(p, _) => KeyOf(p) == key
    case Dropped(k) => k == key
  }

  predicate Starts(before: Option<Group>, p: Piece) {
    before.None? || before.value.segments != p.concat.value.segments
  }

  /** The group a part joins, after it joined: a part that announces another count restarts it. */
  function Grown(before: Option<Group>, p: Piece, at: int): Group {
    var base := if Starts(before, p) then Group(p.concat.value.segments, at, map[]) else before.value;
    base.(parts := base.parts[p.concat.value.sequence := p])
  }

  ghost function After(before: Option<Group>, f: Fact, key: Key): Option<Group> {
    if !Concerns(f, key) then before
    else if f.Dropped? then None
    else if Complete(Grown(before, f.part, f.at)) then None
    else Some(Grown(before, f.part, f.at))
  }

  /** The live group of a key. */
  ghost function GroupOf(log: seq<Fact>, key: Key): Option<Group> {
    if log == [] then None
    else After(GroupOf(log[..|log| - 1], key), log[|log| - 1], key)
  }

  /** The group that the part at position i joined, that part included. */
  ghost function GrownAt(log: seq<Fact>, i: nat): Group
    requires i < |log| && log[i].Arrived?
  {
    Grown(GroupOf(log[..i], KeyOf(log[i].part)), log[i].part, log[i].at)
  }

  ghost predicate EmitsAt(log: seq<Fact>, i: nat)
    requires i < |log| && log[i].Arrived?
  {
    Complete(GrownAt(log, i))
  }

  ghost function EmittedAt(log: seq<Fact>, i: nat): InboundMessage
    requires i < |log| && log[i].Arrived? && EmitsAt(log, i)
  {
    Assembled(GrownAt(log, i))
  }

  // ----- counting sequence numbers -----

  ghost function Range(n: int): (r: set<int>)
    ensures n >= 0 ==> |r| == n
    ensures forall k :: k in r <==> 1 <= k <= n
    decreases n
  {
    if n <= 0 then {} else Range(n - 1) + {n}
  }

  /** The early size check of the code is sound: with fewer parts than segments some
      needed part is missing, whatever the other sequence numbers are. */
  lemma CompleteNeedsAll(g: Group)
    requires Complete(g)
    ensures g.segments <= |g.parts|
  {
    if 0 < g.segments {
      assert forall k :: k in Range(g.segments) ==> Needed(g.segments, k);
      SubsetSize(Range(g.segments), g.parts.Keys);
    }
  }

  lemma GroupOfAppend(log: seq<Fact>, f: Fact, key: Key)
    ensures GroupOf(log + [f], key) == After(GroupOf(log, key), f, key)
  {
  }
}
