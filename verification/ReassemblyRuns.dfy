/**
  What reassembly promises over whole runs: when a message is emitted and with what
  content, why arrival order and other keys do not matter, and where every group went.
 */
module ReassemblyRuns {
  import opened Collections
  import opened Options
  import opened Reassembly

  predicate ArrivedFor(f: Fact, key: Key) {
    && f.Arrived? && f.part.sender == key.sender
    && f.part.concat.value.refWidth == key.refWidth && f.part.concat.value.ref == key.ref
  }

  /** The part at position j still belongs to the current group of its key: since then
      the group was neither given up, nor restarted with another count, nor emitted. */
  ghost predicate OpenSince(log: seq<Fact>, key: Key, j: nat) {
    && j < |log| && ArrivedFor(log[j], key)
    && (forall k :: j <= k < |log| ==>
          && log[k] != Dropped(key)
          && (ArrivedFor(log[k], key) ==>
                log[k].part.concat.value.segments == log[j].part.concat.value.segments && !EmitsAt(log, k)))
  }

  ghost function Open(log: seq<Fact>, key: Key): (open: set<nat>)
    ensures forall j: nat :: j in open <==> OpenSince(log, key, j)
  {
    set j: nat | j < |log| && OpenSince(log, key, j)
  }

  predicate Positions(log: seq<Fact>, open: set<nat>) {
    forall j :: j in open ==> j < |log| && log[j].Arrived?
  }

  /** j is the LATEST of the given positions with this sequence number. */
  predicate Latest(log: seq<Fact>, open: set<nat>, sequence: int, j: nat)
    requires Positions(log, open)
  {
    && j in open && log[j].part.concat.value.sequence == sequence
    && forall k :: k in open && j < k ==> log[k].part.concat.value.sequence != sequence
  }

  ghost predicate FromLatest(log: seq<Fact>, open: set<nat>, sequence: int, part: InboundPart)
    requires Positions(log, open)
  {
    exists j: nat :: Latest(log, open, sequence, j) && part == log[j].part
  }

  /** The group holds, for exactly the sequence numbers of the open parts, the latest of them. */
  ghost predicate Means(log: seq<Fact>, open: set<nat>, g: Option<Group>)
    requires Positions(log, open)
  {
    if g.None? then
      open == {}
    else
      && open != {}
      && (forall j :: j in open ==>
            log[j].part.concat.value.segments == g.value.segments && log[j].part.concat.value.sequence in g.value.parts)
      && (forall sequence :: sequence in g.value.parts ==>
            FromLatest(log, open, sequence, g.value.parts[sequence]))
  }

  lemma EmitsAtPrefix(log: seq<Fact>, more: seq<Fact>, k: nat)
    requires k < |log| && log[k].Arrived?
    ensures EmitsAt(log + more, k) <==> EmitsAt(log, k)
  {
    assert (log + more)[..k] == log[..k];
  }

  lemma OpenAppend(log: seq<Fact>, f: Fact, key: Key, j: nat)
    requires j < |log|
    ensures OpenSince(log + [f], key, j) <==>
            && OpenSince(log, key, j)
            && f != Dropped(key)
            && (ArrivedFor(f, key) ==>
                  f.part.concat.value.segments == log[j].part.concat.value.segments && !EmitsAt(log + [f], |log|))
  {
    var next := log + [f];
    forall k | 0 <= k < |log| && log[k].Arrived?
      ensures EmitsAt(next, k) <==> EmitsAt(log, k)
    {
      EmitsAtPrefix(log, [f], k);
    }
    forall k | 0 <= k < |log| ensures next[k] == log[k] {}
    assert next[|log|] == f;
    if OpenSince(next, key, j) {
      assert OpenSince(log, key, j);
    }
  }

  lemma OpenAtEnd(log: seq<Fact>, f: Fact, key: Key)
    ensures OpenSince(log + [f], key, |log|) <==> ArrivedFor(f, key) && !EmitsAt(log + [f], |log|)
  {
  }

  lemma GrownAtEnd(log: seq<Fact>, f: Fact)
    requires f.Arrived?
    ensures GrownAt(log + [f], |log|) == Grown(GroupOf(log, KeyOf(f.part)), f.part, f.at)
  {
  }

  lemma OpenAfterOther(log: seq<Fact>, f: Fact, key: Key)
    requires !Concerns(f, key)
    ensures Open(log + [f], key) == Open(log, key)
  {
    OpenAtEnd(log, f, key);
    forall j: nat ensures j in Open(log + [f], key) <==> j in Open(log, key) {
      if j < |log| {
        OpenAppend(log, f, key, j);
      }
    }
  }

  lemma OpenAfterDrop(log: seq<Fact>, key: Key)
    ensures Open(log + [Dropped(key)], key) == {}
  {
    forall j: nat ensures j !in Open(log + [Dropped(key)], key) {
      if j < |log| {
        OpenAppend(log, Dropped(key), key, j);
      }
    }
  }

  lemma OpenAfterArrival(log: seq<Fact>, f: Fact, key: Key)
    requires ArrivedFor(f, key)
    ensures EmitsAt(log + [f], |log|) ==> Open(log + [f], key) == {}
    ensures !EmitsAt(log + [f], |log|) ==>
              forall j: nat :: j in Open(log + [f], key) <==>
                j == |log| || (j in Open(log, key) && f.part.concat.value.segments == log[j].part.concat.value.segments)
  {
    OpenAtEnd(log, f, key);
    forall j: nat | j < |log|
      ensures j in Open(log + [f], key) <==>
              && j in Open(log, key) && !EmitsAt(log + [f], |log|)
              && f.part.concat.value.segments == log[j].part.concat.value.segments
    {
      OpenAppend(log, f, key, j);
    }
  }

  lemma LatestAppend(log: seq<Fact>, f: Fact, open: set<nat>, next: set<nat>, sequence: int, part: InboundPart)
    requires Positions(log, open) && Positions(log + [f], next) && FromLatest(log, open, sequence, part)
    requires forall j :: j in open ==> j in next
    requires forall j :: j in next ==> j in open || (j == |log| && f.part.concat.value.sequence != sequence)
    ensures FromLatest(log + [f], next, sequence, part)
  {
  }

  lemma MeansAfterOther(log: seq<Fact>, f: Fact, open: set<nat>, g: Option<Group>)
    requires Positions(log, open) && Means(log, open, g)
    ensures Means(log + [f], open, g)
  {
  }

  /** Which parts a group holds once the part f joined it. */
  lemma MeansAfterJoin(log: seq<Fact>, f: Fact, open: set<nat>, next: set<nat>, g: Option<Group>)
    requires Positions(log, open) && Means(log, open, g) && f.Arrived?
    requires forall j :: j in next <==>
               j == |log| || (j in open && f.part.concat.value.segments == log[j].part.concat.value.segments)
    ensures Positions(log + [f], next) && Means(log + [f], next, Some(Grown(g, f.part, f.at)))
  {
    var parts := Grown(g, f.part, f.at).parts;
    assert |log| in next;
    forall sequence | sequence in parts
      ensures FromLatest(log + [f], next, sequence, parts[sequence])
    {
      if sequence == f.part.concat.value.sequence {
        assert Latest(log + [f], next, sequence, |log|);
      } else {
        LatestAppend(log, f, open, next, sequence, parts[sequence]);
      }
    }
  }

  lemma {:induction false} GroupMeans(log: seq<Fact>, key: Key)
    ensures Means(log, Open(log, key), GroupOf(log, key))
  {
    if log != [] {
      var front, f := log[..|log| - 1], log[|log| - 1];
      assert log == front + [f];
      GroupMeans(front, key);
      if !Concerns(f, key) {
        OpenAfterOther(front, f, key);
        MeansAfterOther(front, f, Open(front, key), GroupOf(front, key));
      } else if f.Dropped? {
        OpenAfterDrop(front, key);
      } else {
        GrownAtEnd(front, f);
        OpenAfterArrival(front, f, key);
        if !EmitsAt(log, |front|) {
          MeansAfterJoin(front, f, Open(front, key), Open(log, key), GroupOf(front, key));
        }
      }
    }
  }

  // ----- exact emission -----

  /** A group dates from the first of its parts, however many come later. */
  ghost predicate BeginsWith(log: seq<Fact>, open: set<nat>, g: Option<Group>)
    requires Positions(log, open)
  {
    g.Some? ==> exists j: nat :: j in open && log[j].at == g.value.firstAt && forall k :: k in open ==> j <= k
  }

  lemma BeginsAfterOther(log: seq<Fact>, f: Fact, open: set<nat>, g: Option<Group>)
    requires Positions(log, open) && BeginsWith(log, open, g)
    ensures Positions(log + [f], open) && BeginsWith(log + [f], open, g)
  {
    if g.Some? {
      var j: nat :| j in open && log[j].at == g.value.firstAt && forall k :: k in open ==> j <= k;
      assert (log + [f])[j] == log[j];
    }
  }

  lemma BeginsAfterJoin(log: seq<Fact>, f: Fact, open: set<nat>, next: set<nat>, g: Option<Group>)
    requires Positions(log, open) && Means(log, open, g) && BeginsWith(log, open, g) && f.Arrived?
    requires forall j :: j in next <==>
               j == |log| || (j in open && f.part.concat.value.segments == log[j].part.concat.value.segments)
    ensures Positions(log + [f], next) && BeginsWith(log + [f], next, Some(Grown(g, f.part, f.at)))
  {
    if g.Some? && g.value.segments == f.part.concat.value.segments {
      var j: nat :| j in open && log[j].at == g.value.firstAt && forall k :: k in open ==> j <= k;
      assert (log + [f])[j] == log[j] && j in next;
    } else {
      assert (log + [f])[|log|] == f && |log| in next;
    }
  }

  lemma {:induction false} GroupBegins(log: seq<Fact>, key: Key)
    ensures BeginsWith(log, Open(log, key), GroupOf(log, key))
  {
    if log != [] {
      var front, f := log[..|log| - 1], log[|log| - 1];
      assert log == front + [f];
      GroupBegins(front, key);
      if !Concerns(f, key) {
        OpenAfterOther(front, f, key);
        BeginsAfterOther(front, f, Open(front, key), GroupOf(front, key));
      } else if f.Arrived? {
        GrownAtEnd(front, f);
        OpenAfterArrival(front, f, key);
        GroupMeans(front, key);
        if !EmitsAt(log, |front|) {
          BeginsAfterJoin(front, f, Open(front, key), Open(log, key), GroupOf(front, key));
        }
      }
    }
  }

  /** The positions whose parts make up the group that the part at position i joins:
      its own, and those still open before it that announce the same count. */
  ghost function Joining(log: seq<Fact>, i: nat): (joining: set<nat>)
    requires i < |log| && log[i].Arrived?
    ensures Positions(log, joining)
    ensures forall j: nat :: j in joining <==>
              j == i || (j < i && OpenSince(log[..i], KeyOf(log[i].part), j)
                         && log[j].part.concat.value.segments == log[i].part.concat.value.segments)
  {
    {i} + set j | j in Open(log[..i], KeyOf(log[i].part))
                  && log[j].part.concat.value.segments == log[i].part.concat.value.segments
  }

  lemma JoiningMeans(log: seq<Fact>, i: nat)
    requires i < |log| && log[i].Arrived?
    ensures Means(log[..i + 1], Joining(log, i), Some(GrownAt(log, i)))
  {
    var key := KeyOf(log[i].part);
    GroupMeans(log[..i], key);
    assert log[..i + 1] == log[..i] + [log[i]];
    assert forall j :: j in Open(log[..i], key) ==> j < i && log[..i][j] == log[j];
    MeansAfterJoin(log[..i], log[i], Open(log[..i], key), Joining(log, i), GroupOf(log[..i], key));
  }

  /** The parts of one group, and so of one message, are of one sender and reference, and
      announce one count. */
  lemma JoiningAlike(log: seq<Fact>, i: nat)
    requires i < |log| && log[i].Arrived?
    ensures forall j :: j in Joining(log, i) ==>
              var p, q := log[j].part, log[i].part;
              && p.sender == q.sender
              && p.concat.value.refWidth == q.concat.value.refWidth && p.concat.value.ref == q.concat.value.ref
              && p.concat.value.segments == q.concat.value.segments
  {
  }

  /** A message has the sender of every part of it. */
  lemma EmittedSender(log: seq<Fact>, i: nat)
    requires i < |log| && log[i].Arrived? && EmitsAt(log, i)
    ensures EmittedAt(log, i).sender == log[i].part.sender
  {
    HeadExact(log, i);
    JoiningAlike(log, i);
    var j: nat :| Latest(log[..i + 1], Joining(log, i), 1, j) && HeadFrom(EmittedAt(log, i), log[..i + 1][j].part);
    assert log[..i + 1][j] == log[j];
  }

  predicate Carries(log: seq<Fact>, joining: set<nat>, sequence: int)
    requires Positions(log, joining)
  {
    exists j :: j in joining && log[j].part.concat.value.sequence == sequence
  }

  ghost predicate HasLatest(log: seq<Fact>, joining: set<nat>, sequence: int)
    requires Positions(log, joining)
  {
    exists j: nat :: Latest(log, joining, sequence, j)
  }

  lemma MeansCarries(log: seq<Fact>, joining: set<nat>, g: Group, sequence: int)
    requires Positions(log, joining) && Means(log, joining, Some(g))
    ensures sequence in g.parts <==> Carries(log, joining, sequence)
    ensures sequence in g.parts <==> HasLatest(log, joining, sequence)
  {
  }

  lemma CarriesPrefix(log: seq<Fact>, i: nat, joining: set<nat>, sequence: int)
    requires i < |log| && Positions(log, joining) && forall j :: j in joining ==> j <= i
    ensures Positions(log[..i + 1], joining)
    ensures Carries(log[..i + 1], joining, sequence) <==> Carries(log, joining, sequence)
  {
  }

  /** A message is emitted EXACTLY at the first part that makes every sequence number
      1..segments present among the parts of its live group, however many parts with
      other sequence numbers the group has collected. */
  lemma EmissionExact(log: seq<Fact>, i: nat)
    requires i < |log| && log[i].Arrived?
    ensures EmitsAt(log, i) <==>
            forall sequence :: 1 <= sequence <= log[i].part.concat.value.segments || sequence == 1 ==>
              Carries(log, Joining(log, i), sequence)
  {
    JoiningMeans(log, i);
    var g := GrownAt(log, i);
    forall sequence
      ensures sequence in g.parts <==> Carries(log, Joining(log, i), sequence)
    {
      MeansCarries(log[..i + 1], Joining(log, i), g, sequence);
      CarriesPrefix(log, i, Joining(log, i), sequence);
    }
  }

  ghost predicate Covered(log: seq<Fact>, joining: set<nat>, n: int)
    requires Positions(log, joining)
  {
    forall sequence :: 1 <= sequence <= n ==> HasLatest(log, joining, sequence)
  }

  /** The content as a plain walk over the log: for each sequence number the text of
      the latest part that carries it. */
  ghost function LatestText(log: seq<Fact>, joining: set<nat>, n: int): string
    requires Positions(log, joining) && Covered(log, joining, n)
    decreases n
  {
    if n <= 0 then ""
    else
      assert HasLatest(log, joining, n);
      var j: nat :| Latest(log, joining, n, j);
      LatestText(log, joining, n - 1) + log[j].part.content
  }

  lemma {:induction false} JoinedIsLatestText(log: seq<Fact>, joining: set<nat>, g: Group, n: int)
    requires Positions(log, joining) && Means(log, joining, Some(g))
    requires forall sequence :: 1 <= sequence <= n ==> sequence in g.parts
    ensures Covered(log, joining, n)
    ensures Joined(g.parts, n) == LatestText(log, joining, n)
    decreases n
  {
    forall sequence | 1 <= sequence <= n
      ensures HasLatest(log, joining, sequence)
    {
      MeansCarries(log, joining, g, sequence);
    }
    if 0 < n {
      JoinedIsLatestText(log, joining, g, n - 1);
      assert FromLatest(log, joining, n, g.parts[n]);
      assert HasLatest(log, joining, n);
    }
  }

  /** The emitted content is the join, in sequence order, of the latest part received
      per sequence number since the group was created. */
  lemma ContentExact(log: seq<Fact>, i: nat)
    requires i < |log| && log[i].Arrived? && EmitsAt(log, i)
    ensures Positions(log[..i + 1], Joining(log, i))
    ensures Covered(log[..i + 1], Joining(log, i), log[i].part.concat.value.segments)
    ensures EmittedAt(log, i).content
            == LatestText(log[..i + 1], Joining(log, i), log[i].part.concat.value.segments)
  {
    JoiningMeans(log, i);
    var g := GrownAt(log, i);
    assert i in Joining(log, i) && log[..i + 1][i] == log[i];
    assert forall sequence :: 1 <= sequence <= g.segments ==> Needed(g.segments, sequence);
    JoinedIsLatestText(log[..i + 1], Joining(log, i), g, g.segments);
  }

  predicate HeadFrom(m: InboundMessage, p: InboundPart) {
    m == InboundMessage(p.sender, m.content, p.ported, p.port, p.receivedAt, p.timestampValid, p.concat)
  }

  ghost predicate HeadKnown(log: seq<Fact>, joining: set<nat>, m: InboundMessage)
    requires Positions(log, joining)
  {
    exists j: nat :: Latest(log, joining, 1, j) && HeadFrom(m, log[j].part)
  }

  /** Sender, port, stamp and reference of the message are those of the latest part 1. */
  lemma HeadExact(log: seq<Fact>, i: nat)
    requires i < |log| && log[i].Arrived? && EmitsAt(log, i)
    ensures Positions(log[..i + 1], Joining(log, i))
    ensures HeadKnown(log[..i + 1], Joining(log, i), EmittedAt(log, i))
  {
    JoiningMeans(log, i);
    var g := GrownAt(log, i);
    assert Needed(g.segments, 1);
    assert FromLatest(log[..i + 1], Joining(log, i), 1, g.parts[1]);
  }

  // ----- other keys, and arrival order -----

  /** What happened to one key. */
  function Project(log: seq<Fact>, key: Key): seq<Fact> {
    if log == [] then []
    else
      Project(log[..|log| - 1], key) + (if Concerns(log[|log| - 1], key) then [log[|log| - 1]] else [])
  }

  /** Nothing that happens to other keys shows in the group of a key. */
  lemma {:induction false} OtherKeysInvisible(log: seq<Fact>, key: Key)
    ensures GroupOf(log, key) == GroupOf(Project(log, key), key)
  {
    if log != [] {
      var front, f := log[..|log| - 1], log[|log| - 1];
      OtherKeysInvisible(front, key);
      if Concerns(f, key) {
        GroupOfAppend(Project(front, key), f, key);
      } else {
        assert Project(log, key) == Project(front, key);
      }
    }
  }

  predicate PartsFor(facts: seq<Fact>, key: Key, n: int) {
    forall i :: 0 <= i < |facts| ==> ArrivedFor(facts[i], key) && facts[i].part.concat.value.segments == n
  }

  predicate DistinctSequences(facts: seq<Fact>)
    requires forall i :: 0 <= i < |facts| ==> facts[i].Arrived?
  {
    forall i, j :: 0 <= i < j < |facts| ==>
      facts[i].part.concat.value.sequence != facts[j].part.concat.value.sequence
  }

  /** A full set of parts of one message: n parts, one per sequence number 1..n. */
  predicate FullSet(facts: seq<Fact>, key: Key, n: int) {
    && 1 <= n == |facts|
    && PartsFor(facts, key, n)
    && (forall i :: 0 <= i < |facts| ==> 1 <= facts[i].part.concat.value.sequence <= n)
    && DistinctSequences(facts)
  }

  function PartsBySequence(facts: seq<Fact>): (parts: map<int, InboundPart>)
    ensures |parts| <= |facts|
  {
    if facts == [] then map[]
    else
      var front, f := PartsBySequence(facts[..|facts| - 1]), facts[|facts| - 1];
      if f.Arrived? then
        assert front[f.part.concat.value.sequence := f.part].Keys == front.Keys + {f.part.concat.value.sequence};
        front[f.part.concat.value.sequence := f.part]
      else front
  }

  lemma PartsBySequenceAppend(front: seq<Fact>, f: Fact)
    requires f.Arrived?
    ensures PartsBySequence(front + [f]) == PartsBySequence(front)[f.part.concat.value.sequence := f.part]
  {
  }

  /** With distinct sequence numbers, every part of the list is in the map. */
  lemma {:induction false} PartsBySequenceHolds(facts: seq<Fact>, i: nat)
    requires i < |facts| && forall k :: 0 <= k < |facts| ==> facts[k].Arrived?
    requires forall k :: i < k < |facts| ==> facts[k].part.concat.value.sequence != facts[i].part.concat.value.sequence
    ensures facts[i].part.concat.value.sequence in PartsBySequence(facts)
    ensures PartsBySequence(facts)[facts[i].part.concat.value.sequence] == facts[i].part
  {
    if i < |facts| - 1 {
      PartsBySequenceHolds(facts[..|facts| - 1], i);
    }
  }

  lemma {:induction false} SequencesCount(facts: seq<Fact>)
    requires forall k :: 0 <= k < |facts| ==> facts[k].Arrived?
    requires DistinctSequences(facts)
    ensures |PartsBySequence(facts)| == |facts|
    ensures forall sequence :: sequence in PartsBySequence(facts) ==>
              exists i :: 0 <= i < |facts| && facts[i].part.concat.value.sequence == sequence
  {
    if facts != [] {
      SequencesCount(facts[..|facts| - 1]);
    }
  }

  lemma TooFewParts(g: Group)
    requires |g.parts| < g.segments
    ensures !Complete(g)
  {
    if Complete(g) {
      CompleteNeedsAll(g);
    }
  }

  /** Feeding the first parts of a set to an empty key builds a group of just those parts. */
  lemma {:induction false} PartialGroup(log: seq<Fact>, facts: seq<Fact>, key: Key, n: int)
    requires GroupOf(log, key).None? && PartsFor(facts, key, n) && 0 < |facts| < n
    ensures GroupOf(log + facts, key) == Some(Group(n, facts[0].at, PartsBySequence(facts)))
  {
    var front, f := facts[..|facts| - 1], facts[|facts| - 1];
    assert facts == front + [f] && log + facts == log + front + [f];
    GroupOfAppend(log + front, f, key);
    PartsBySequenceAppend(front, f);
    TooFewParts(Group(n, facts[0].at, PartsBySequence(facts)));
    if front == [] {
      assert log + front == log;
    } else {
      PartialGroup(log, front, key, n);
    }
  }

  lemma FullSetCovers(facts: seq<Fact>, key: Key, n: int, sequence: int)
    requires FullSet(facts, key, n)
    ensures sequence in PartsBySequence(facts) <==> 1 <= sequence <= n
  {
    SequencesCount(facts);
    var parts := PartsBySequence(facts);
    if 1 <= sequence <= n && sequence !in parts {
      assert parts.Keys <= Range(n) - {sequence};
      SubsetSize(parts.Keys, Range(n) - {sequence});
    }
  }

  /** A full set fed to an empty key, in any order, is emitted at its last part, as the
      message made of its parts, and not before. */
  lemma FullSetEmits(log: seq<Fact>, facts: seq<Fact>, key: Key, n: int)
    requires GroupOf(log, key).None? && FullSet(facts, key, n)
    ensures forall k :: 1 <= k < n ==> GroupOf(log + facts[..k], key).Some?
    ensures var g := Grown(GroupOf(log + facts[..n - 1], key), facts[n - 1].part, facts[n - 1].at);
            Complete(g) && g.parts == PartsBySequence(facts) && g.segments == n
  {
    forall k | 1 <= k < n ensures GroupOf(log + facts[..k], key).Some? {
      PartialGroup(log, facts[..k], key, n);
    }
    LastOfFullSet(log, facts, key, n);
    forall sequence | Needed(n, sequence) ensures sequence in PartsBySequence(facts) {
      FullSetCovers(facts, key, n, sequence);
    }
  }

  lemma LastOfFullSet(log: seq<Fact>, facts: seq<Fact>, key: Key, n: int)
    requires GroupOf(log, key).None? && 1 <= n == |facts| && PartsFor(facts, key, n)
    ensures var g := Grown(GroupOf(log + facts[..n - 1], key), facts[n - 1].part, facts[n - 1].at);
            g.parts == PartsBySequence(facts) && g.segments == n
  {
    var front, f := facts[..n - 1], facts[n - 1];
    assert facts == front + [f];
    PartsBySequenceAppend(front, f);
    if n == 1 {
      assert log + front == log;
    } else {
      PartialGroup(log, front, key, n);
    }
  }

  predicate SameParts(a: seq<Fact>, b: seq<Fact>)
    requires forall i :: 0 <= i < |a| ==> a[i].Arrived?
    requires forall i :: 0 <= i < |b| ==> b[i].Arrived?
  {
    forall i, j :: 0 <= i < |a| && 0 <= j < |b|
                   && a[i].part.concat.value.sequence == b[j].part.concat.value.sequence ==>
      a[i].part == b[j].part
  }

  lemma SamePartsSameMap(a: seq<Fact>, b: seq<Fact>, key: Key, n: int)
    requires FullSet(a, key, n) && FullSet(b, key, n) && SameParts(a, b)
    ensures PartsBySequence(a) == PartsBySequence(b)
  {
    forall sequence
      ensures sequence in PartsBySequence(a) <==> sequence in PartsBySequence(b)
      ensures sequence in PartsBySequence(a) ==> PartsBySequence(a)[sequence] == PartsBySequence(b)[sequence]
    {
      FullSetCovers(a, key, n, sequence);
      FullSetCovers(b, key, n, sequence);
      if sequence in PartsBySequence(a) {
        var i := PartAt(a, key, n, sequence);
        var j := PartAt(b, key, n, sequence);
        assert a[i].part == b[j].part;
      }
    }
  }

  lemma PartAt(facts: seq<Fact>, key: Key, n: int, sequence: int) returns (i: nat)
    requires FullSet(facts, key, n) && sequence in PartsBySequence(facts)
    ensures i < |facts| && facts[i].part.concat.value.sequence == sequence
    ensures PartsBySequence(facts)[sequence] == facts[i].part
  {
    SequencesCount(facts);
    i :| 0 <= i < |facts| && facts[i].part.concat.value.sequence == sequence;
    PartsBySequenceHolds(facts, i);
  }

  /** The history of the key ends with the full set a, which found the key empty; the
      last event of the log is the last part of the set. */
  ghost predicate EndsWith(log: seq<Fact>, before: seq<Fact>, a: seq<Fact>, key: Key, n: int) {
    && FullSet(a, key, n)
    && Project(log, key) == before + a && GroupOf(before, key).None?
    && log != [] && ArrivedFor(log[|log| - 1], key)
  }

  /** Two histories that end with the same parts of one message, in whatever order and
      with whatever other traffic in between, emit the same message. */
  lemma AnyOrderAnyInterleaving(
      log1: seq<Fact>, log2: seq<Fact>, before1: seq<Fact>, before2: seq<Fact>,
      a: seq<Fact>, b: seq<Fact>, key: Key, n: int)
    requires EndsWith(log1, before1, a, key, n) && EndsWith(log2, before2, b, key, n)
    requires SameParts(a, b)
    ensures EmitsAt(log1, |log1| - 1) && EmitsAt(log2, |log2| - 1)
    ensures EmittedAt(log1, |log1| - 1) == EmittedAt(log2, |log2| - 1)
  {
    LastOfProjection(log1, before1, a, key, n);
    LastOfProjection(log2, before2, b, key, n);
    assert PartsBySequence(a) == PartsBySequence(b) by {
      SamePartsSameMap(a, b, key, n);
    }
    AssembledByParts(GrownAt(log1, |log1| - 1), GrownAt(log2, |log2| - 1));
  }

  lemma AssembledByParts(g: Group, h: Group)
    requires g.parts == h.parts && g.segments == h.segments && Complete(g)
    ensures Complete(h) && Assembled(g) == Assembled(h)
  {
  }

  lemma LastOfProjection(log: seq<Fact>, before: seq<Fact>, a: seq<Fact>, key: Key, n: int)
    requires EndsWith(log, before, a, key, n)
    ensures EmitsAt(log, |log| - 1)
    ensures GrownAt(log, |log| - 1).parts == PartsBySequence(a) && GrownAt(log, |log| - 1).segments == n
  {
    var front, f := log[..|log| - 1], log[|log| - 1];
    assert Project(log, key) == Project(front, key) + [f];
    assert a[n - 1] == (before + a)[|before| + n - 1] == f;
    assert before + a[..n - 1] == (before + a)[..|before| + n - 1] == Project(front, key);
    OtherKeysInvisible(front, key);
    FullSetEmits(before, a, key, n);
  }

  // ----- where every group went -----

  ghost function Created(log: seq<Fact>): nat {
    if log == [] then 0
    else
      var front, f := log[..|log| - 1], log[|log| - 1];
      Created(front) + if f.Arrived? && Starts(GroupOf(front, KeyOf(f.part)), f.part) then 1 else 0
  }

  /** Groups restarted, while still live, by a part that announced another count. */
  ghost function Overwritten(log: seq<Fact>): nat {
    if log == [] then 0
    else
      var front, f := log[..|log| - 1], log[|log| - 1];
      Overwritten(front)
      + if f.Arrived? && GroupOf(front, KeyOf(f.part)).Some? && Starts(GroupOf(front, KeyOf(f.part)), f.part)
        then 1 else 0
  }

  ghost function Emitted(log: seq<Fact>): nat {
    if log == [] then 0
    else Emitted(log[..|log| - 1]) + if log[|log| - 1].Arrived? && EmitsAt(log, |log| - 1) then 1 else 0
  }

  ghost function GivenUp(log: seq<Fact>): nat {
    if log == [] then 0
    else
      var front, f := log[..|log| - 1], log[|log| - 1];
      GivenUp(front) + if f.Dropped? && GroupOf(front, f.key).Some? then 1 else 0
  }

  ghost function LiveKeys(log: seq<Fact>): set<Key> {
    if log == [] then {}
    else
      var front, f := LiveKeys(log[..|log| - 1]), log[|log| - 1];
      match f
      case Dropped(key) => front - {key}
      case Arrived(p, _) => if EmitsAt(log, |log| - 1) then front - {KeyOf(p)} else front + {KeyOf(p)}
  }

  lemma {:induction false} LiveKeysExact(log: seq<Fact>, key: Key)
    ensures key in LiveKeys(log) <==> GroupOf(log, key).Some?
  {
    if log != [] {
      LiveKeysExact(log[..|log| - 1], key);
    }
  }

  lemma CountWith(keys: set<Key>, key: Key)
    ensures |keys + {key}| == |keys| + if key in keys then 0 else 1
    ensures |keys - {key}| == |keys| - if key in keys then 1 else 0
  {
  }

  /** Conservation: every group ever created is live, or was emitted, or was given up,
      or was restarted by a changed part count. */
  lemma {:induction false} GroupsAccounted(log: seq<Fact>)
    ensures Created(log) == |LiveKeys(log)| + Emitted(log) + GivenUp(log) + Overwritten(log)
  {
    if log != [] {
      var front, f := log[..|log| - 1], log[|log| - 1];
      GroupsAccounted(front);
      var key := if f.Arrived? then KeyOf(f.part) else f.key;
      LiveKeysExact(front, key);
      CountWith(LiveKeys(front), key);
    }
  }
}
