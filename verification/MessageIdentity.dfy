/**
  The text an inbound message is identified by, before it is hashed (inboundMessageID of
  internal/inbox/types.go).
 */
module MessageIdentity {
  import opened Options
  import opened Reassembly
  import opened Text

  // inboundIDSeparator
  const SEPARATOR: char := '\U{1F}'

  /** A UTC time to the second, as time.RFC3339 writes it. */
  datatype Stamp = Stamp(year: nat, month: nat, day: nat, hour: nat, minute: nat, second: nat)

  datatype Reference = Reference(width: nat, ref: nat)

  /** What the identity takes of a message: the stamp only if its timestamp is valid, and
      neither the part count nor the ported flag. */
  datatype Message = Message(
    stamp: Option<Stamp>,
    sender: string,
    content: string,
    port: nat,
    concat: Option<Reference>)

  /** The width and the value of a decoded reference are not negative. */
  predicate Decoded(m: InboundMessage) {
    m.concat.Some? ==> 0 <= m.concat.value.refWidth && 0 <= m.concat.value.ref
  }

  /** That of an assembled message; civil is the calendar, to the second. */
  function Identified(m: InboundMessage, civil: int -> Stamp): Message
    requires Decoded(m)
  {
    Message(
      if m.timestampValid then Some(civil(m.receivedAt)) else None,
      m.sender.text, m.content, m.port,
      if m.concat.Some? then Some(Reference(m.concat.value.refWidth, m.concat.value.ref)) else None)
  }

  predicate Written(s: Stamp) {
    s.year < 10000 && s.month < 100 && s.day < 100 && s.hour < 100 && s.minute < 100 && s.second < 100
  }

  function Two(n: nat): string
    requires n < 100
  {
    [Digit(n / 10), Digit(n % 10)]
  }

  function Four(n: nat): string
    requires n < 10000
  {
    Two(n / 100) + Two(n % 100)
  }

  function Date(s: Stamp): string
    requires Written(s)
  {
    Four(s.year) + "-" + Two(s.month) + "-" + Two(s.day)
  }

  function Time(s: Stamp): string
    requires Written(s)
  {
    Two(s.hour) + ":" + Two(s.minute) + ":" + Two(s.second) + "Z"
  }

  function Rfc3339(s: Stamp): string
    requires Written(s)
  {
    Date(s) + "T" + Time(s)
  }

  function RefText(r: Reference): string {
    Itoa(r.width) + ":" + Itoa(r.ref)
  }

  predicate Plausible(m: Message) {
    m.stamp.Some? ==> Written(m.stamp.value)
  }

  function Components(m: Message): (components: seq<string>)
    requires Plausible(m)
    ensures components != []
  {
    var middle := [m.sender, m.content, Itoa(m.port)];
    var referred := if m.concat.Some? then middle + [RefText(m.concat.value)] else middle;
    if m.stamp.Some? then [Rfc3339(m.stamp.value)] + referred else referred
  }

  function PreImage(m: Message): string
    requires Plausible(m)
  {
    Join(Components(m), SEPARATOR)
  }

  lemma NumberTwo(n: nat)
    requires n < 100
    ensures |Two(n)| == 2 && Digits(Two(n)) && Number(Two(n)) == n
  {
    var tens := Two(n)[..1];
    assert tens == [Digit(n / 10)] && tens[..0] == "";
    assert Number(tens) == 10 * Number("") + n / 10;
    assert Number(Two(n)) == 10 * Number(tens) + n % 10;
  }

  lemma NumberFour(n: nat)
    requires n < 10000
    ensures |Four(n)| == 4 && Digits(Four(n)) && Number(Four(n)) == n
  {
    NumberTwo(n / 100);
    var s := Four(n);
    assert s[..3][..2] == Two(n / 100) && s[..3] == Two(n / 100) + [Digit(n % 100 / 10)];
    assert s == s[..3] + [Digit(n % 100 % 10)];
    assert Number(s[..3]) == 10 * (n / 100) + n % 100 / 10;
    assert Number(s) == 10 * Number(s[..3]) + n % 100 % 10;
  }

  /** The parts of a stamp, each at its place. */
  lemma StampForm(s: Stamp)
    requires Written(s)
    ensures var t := Rfc3339(s);
            && |t| == 20 && t[4] == t[7] == '-' && t[10] == 'T' && t[13] == t[16] == ':' && t[19] == 'Z'
            && t[..4] == Four(s.year) && t[5..7] == Two(s.month) && t[8..10] == Two(s.day)
            && t[11..13] == Two(s.hour) && t[14..16] == Two(s.minute) && t[17..19] == Two(s.second)
  {
  }

  /** A stamp is written as YYYY-MM-DDThh:mm:ssZ, and every number of it can be read back. */
  lemma StampReads(s: Stamp)
    requires Written(s)
    ensures var t := Rfc3339(s);
            && |t| == 20 && t[4] == t[7] == '-' && t[10] == 'T' && t[13] == t[16] == ':' && t[19] == 'Z'
            && Digits(t[..4]) && Number(t[..4]) == s.year
            && Digits(t[5..7]) && Number(t[5..7]) == s.month && Digits(t[8..10]) && Number(t[8..10]) == s.day
            && Digits(t[11..13]) && Number(t[11..13]) == s.hour
            && Digits(t[14..16]) && Number(t[14..16]) == s.minute && Digits(t[17..19]) && Number(t[17..19]) == s.second
  {
    StampForm(s);
    NumberFour(s.year);
    NumberTwo(s.month);
    NumberTwo(s.day);
    NumberTwo(s.hour);
    NumberTwo(s.minute);
    NumberTwo(s.second);
  }

  // ----- the components can be read back -----

  lemma DigitsLack(s: string, c: char)
    requires Digits(s) && !IsDigit(c)
    ensures c !in s
  {
  }

  lemma ItoaInjective(m: nat, n: nat)
    requires Itoa(m) == Itoa(n)
    ensures m == n
  {
    NumberItoa(m);
    NumberItoa(n);
  }

  lemma RefTextInjective(a: Reference, b: Reference)
    requires RefText(a) == RefText(b)
    ensures a == b
  {
    DigitsLack(Itoa(a.width), ':');
    DigitsLack(Itoa(b.width), ':');
    SplitFirst(Itoa(a.width), ':', Itoa(a.ref));
    SplitFirst(Itoa(b.width), ':', Itoa(b.ref));
    DigitsLack(Itoa(a.ref), ':');
    DigitsLack(Itoa(b.ref), ':');
    SplitClean(Itoa(a.ref), ':');
    SplitClean(Itoa(b.ref), ':');
    assert Split(RefText(a), ':') == [Itoa(a.width), Itoa(a.ref)];
    assert Split(RefText(b), ':') == [Itoa(b.width), Itoa(b.ref)];
    ItoaInjective(a.width, b.width);
    ItoaInjective(a.ref, b.ref);
  }

  lemma RefTextIsNoNumber(r: Reference, n: nat)
    ensures RefText(r) != Itoa(n)
  {
    DigitsLack(Itoa(n), ':');
    assert RefText(r)[|Itoa(r.width)|] == ':';
  }

  lemma TwoInjective(m: nat, n: nat)
    requires m < 100 && n < 100 && Two(m) == Two(n)
    ensures m == n
  {
  }

  lemma DateInjective(a: Stamp, b: Stamp)
    requires Written(a) && Written(b) && Date(a) == Date(b)
    ensures a.year == b.year && a.month == b.month && a.day == b.day
  {
    var s, t := Date(a), Date(b);
    assert s[0..2] == Two(a.year / 100) && t[0..2] == Two(b.year / 100);
    assert s[2..4] == Two(a.year % 100) && t[2..4] == Two(b.year % 100);
    assert s[5..7] == Two(a.month) && t[5..7] == Two(b.month);
    assert s[8..10] == Two(a.day) && t[8..10] == Two(b.day);
    TwoInjective(a.year / 100, b.year / 100);
    TwoInjective(a.year % 100, b.year % 100);
    TwoInjective(a.month, b.month);
    TwoInjective(a.day, b.day);
  }

  lemma TimeInjective(a: Stamp, b: Stamp)
    requires Written(a) && Written(b) && Time(a) == Time(b)
    ensures a.hour == b.hour && a.minute == b.minute && a.second == b.second
  {
    var s, t := Time(a), Time(b);
    assert s[0..2] == Two(a.hour) && t[0..2] == Two(b.hour);
    assert s[3..5] == Two(a.minute) && t[3..5] == Two(b.minute);
    assert s[6..8] == Two(a.second) && t[6..8] == Two(b.second);
    TwoInjective(a.hour, b.hour);
    TwoInjective(a.minute, b.minute);
    TwoInjective(a.second, b.second);
  }

  lemma StampInjective(a: Stamp, b: Stamp)
    requires Written(a) && Written(b) && Rfc3339(a) == Rfc3339(b)
    ensures a == b
  {
    var s, t := Rfc3339(a), Rfc3339(b);
    assert |Date(a)| == 10 && |Date(b)| == 10;
    assert s[..10] == Date(a) && t[..10] == Date(b) && s[11..] == Time(a) && t[11..] == Time(b);
    DateInjective(a, b);
    TimeInjective(a, b);
  }

  /** What follows the sender and the content. */
  function Tail(m: Message): string {
    if m.concat.Some? then Itoa(m.port) + [SEPARATOR] + RefText(m.concat.value) else Itoa(m.port)
  }

  /** The text: stamp if there is one, sender, content, port, and width and value of the
      reference if there is one, with U+001F between them. */
  lemma IdentityText(m: Message)
    requires Plausible(m)
    ensures PreImage(m) ==
              (if m.stamp.Some? then Rfc3339(m.stamp.value) + "\U{1F}" else "")
              + (m.sender + "\U{1F}" + m.content + "\U{1F}"
                 + (if m.concat.Some? then
                      Itoa(m.port) + "\U{1F}" + (Itoa(m.concat.value.width) + ":" + Itoa(m.concat.value.ref))
                    else Itoa(m.port)))
  {
    PreImageForm(m);
    assert "\U{1F}" == [SEPARATOR];
  }

  lemma PreImageForm(m: Message)
    requires Plausible(m)
    ensures PreImage(m) == (if m.stamp.Some? then Rfc3339(m.stamp.value) + [SEPARATOR] else "")
                           + (m.sender + [SEPARATOR] + m.content + [SEPARATOR] + Tail(m))
  {
    var ports := if m.concat.Some? then [Itoa(m.port), RefText(m.concat.value)] else [Itoa(m.port)];
    if m.concat.Some? {
      assert ports[1..] == [RefText(m.concat.value)];
    }
    assert Join(ports, SEPARATOR) == Tail(m);
    var contents := [m.content] + ports;
    assert contents[1..] == ports;
    var senders := [m.sender] + contents;
    assert senders[1..] == contents;
    assert Join(senders, SEPARATOR) == m.sender + [SEPARATOR] + m.content + [SEPARATOR] + Tail(m);
    if m.stamp.Some? {
      assert Components(m) == [Rfc3339(m.stamp.value)] + senders;
      assert Components(m)[1..] == senders;
    } else {
      assert Components(m) == senders;
    }
  }

  /** The text before the first separator can be read off. */
  lemma CutLeft(a: string, b: string, c: string, d: string)
    requires SEPARATOR !in a && SEPARATOR !in c && a + [SEPARATOR] + b == c + [SEPARATOR] + d
    ensures a == c && b == d
  {
    var s := a + [SEPARATOR] + b;
    assert s[|a|] == SEPARATOR && s[|c|] == SEPARATOR;
    assert forall k :: 0 <= k < |a| ==> s[k] == a[k];
    assert forall k :: 0 <= k < |c| ==> s[k] == c[k];
    assert a == s[..|a|] && c == s[..|c|] && b == s[|a| + 1..] && d == s[|c| + 1..];
  }

  /** And the text after the last one. */
  lemma CutRight(a: string, b: string, c: string, d: string)
    requires SEPARATOR !in b && SEPARATOR !in d && a + [SEPARATOR] + b == c + [SEPARATOR] + d
    ensures a == c && b == d
  {
    var s := a + [SEPARATOR] + b;
    assert s[|a|] == SEPARATOR && s[|c|] == SEPARATOR;
    assert forall k :: |a| < k < |s| ==> s[k] == b[k - |a| - 1];
    assert forall k :: |c| < k < |s| ==> s[k] == d[k - |c| - 1];
    assert a == s[..|a|] && c == s[..|c|] && b == s[|a| + 1..] && d == s[|c| + 1..];
  }

  lemma RefTextClean(r: Reference)
    ensures SEPARATOR !in RefText(r)
  {
    DigitsLack(Itoa(r.width), SEPARATOR);
    DigitsLack(Itoa(r.ref), SEPARATOR);
  }

  function Rest(content: string, m: Message): string {
    content + [SEPARATOR] + Tail(m)
  }

  lemma RestForm(content: string, m: Message)
    ensures Rest(content, m) ==
            if m.concat.Some? then (content + [SEPARATOR] + Itoa(m.port)) + [SEPARATOR] + RefText(m.concat.value)
            else content + [SEPARATOR] + Itoa(m.port)
  {
  }

  /** From the right the reference, the port and the content are read off, whatever the
      content holds: a reference is no number. */
  lemma RestDetermines(c: string, m: Message, d: string, n: Message)
    requires Rest(c, m) == Rest(d, n)
    ensures c == d && m.port == n.port && m.concat == n.concat
  {
    RestForm(c, m);
    RestForm(d, n);
    DigitsLack(Itoa(m.port), SEPARATOR);
    DigitsLack(Itoa(n.port), SEPARATOR);
    var x, y := c + [SEPARATOR] + Itoa(m.port), d + [SEPARATOR] + Itoa(n.port);
    if m.concat.Some? && n.concat.Some? {
      RefTextClean(m.concat.value);
      RefTextClean(n.concat.value);
      CutRight(x, RefText(m.concat.value), y, RefText(n.concat.value));
      RefTextInjective(m.concat.value, n.concat.value);
    } else if m.concat.Some? {
      RefTextClean(m.concat.value);
      CutRight(x, RefText(m.concat.value), d, Itoa(n.port));
      RefTextIsNoNumber(m.concat.value, n.port);
    } else if n.concat.Some? {
      RefTextClean(n.concat.value);
      CutRight(c, Itoa(m.port), y, RefText(n.concat.value));
      RefTextIsNoNumber(n.concat.value, m.port);
    }
    CutRight(c, Itoa(m.port), d, Itoa(n.port));
    ItoaInjective(m.port, n.port);
  }

  lemma StampClean(s: Stamp)
    requires Written(s)
    ensures SEPARATOR !in Rfc3339(s)
  {
  }

  // ----- main results -----

  /** One message has no stamp but a sender that reads like the other's, whose own sender
      its content goes on with. */
  predicate Crossed(m: Message, n: Message)
    requires Plausible(n)
  {
    && m.stamp.None? && n.stamp.Some? && m.sender == Rfc3339(n.stamp.value)
    && m.content == n.sender + [SEPARATOR] + n.content
    && m.port == n.port && m.concat == n.concat
  }

  function Head(m: Message): string
    requires Plausible(m)
  {
    if m.stamp.Some? then Rfc3339(m.stamp.value) else m.sender
  }

  function Behind(m: Message): string {
    if m.stamp.Some? then m.sender + [SEPARATOR] + Rest(m.content, m) else Rest(m.content, m)
  }

  lemma HeadForm(m: Message)
    requires Plausible(m)
    ensures PreImage(m) == Head(m) + [SEPARATOR] + Behind(m)
  {
    PreImageForm(m);
    var tail := m.content + [SEPARATOR] + Tail(m);
    assert m.sender + [SEPARATOR] + m.content + [SEPARATOR] + Tail(m) == m.sender + [SEPARATOR] + tail;
    if m.stamp.Some? {
      assert (Rfc3339(m.stamp.value) + [SEPARATOR]) + (m.sender + [SEPARATOR] + tail)
          == Rfc3339(m.stamp.value) + [SEPARATOR] + (m.sender + [SEPARATOR] + tail);
    } else {
      assert "" + (m.sender + [SEPARATOR] + tail) == m.sender + [SEPARATOR] + tail;
    }
  }

  lemma SameHead(m: Message, n: Message)
    requires Plausible(m) && Plausible(n) && SEPARATOR !in m.sender && SEPARATOR !in n.sender
    requires PreImage(m) == PreImage(n)
    ensures Head(m) == Head(n) && Behind(m) == Behind(n)
  {
    HeadForm(m);
    HeadForm(n);
    if m.stamp.Some? {
      StampClean(m.stamp.value);
    }
    if n.stamp.Some? {
      StampClean(n.stamp.value);
    }
    CutLeft(Head(m), Behind(m), Head(n), Behind(n));
  }

  lemma OnlyCrossed(m: Message, n: Message)
    requires Plausible(m) && Plausible(n) && m.stamp.None? && n.stamp.Some?
    requires Head(m) == Head(n) && Behind(m) == Behind(n)
    ensures Crossed(m, n)
  {
    var content := n.sender + [SEPARATOR] + n.content;
    assert Behind(n) == Rest(content, n);
    RestDetermines(m.content, m, content, n);
  }

  lemma CrossedCollide(m: Message, n: Message)
    requires Plausible(m) && Plausible(n) && Crossed(m, n)
    ensures PreImage(m) == PreImage(n)
  {
    HeadForm(m);
    HeadForm(n);
    Regroup(n.sender, n.content, Tail(n));
    assert Behind(m) == Behind(n);
  }

  lemma Regroup(a: string, b: string, c: string)
    ensures a + [SEPARATOR] + (b + [SEPARATOR] + c) == (a + [SEPARATOR] + b) + [SEPARATOR] + c
  {
  }

  lemma Readable(m: Message, n: Message)
    requires Plausible(m) && Plausible(n) && SEPARATOR !in m.sender && SEPARATOR !in n.sender
    requires PreImage(m) == PreImage(n)
    ensures m == n || Crossed(m, n) || Crossed(n, m)
  {
    SameHead(m, n);
    if m.stamp.Some? && n.stamp.Some? {
      StampInjective(m.stamp.value, n.stamp.value);
      CutLeft(m.sender, Rest(m.content, m), n.sender, Rest(n.content, n));
      RestDetermines(m.content, m, n.content, n);
    } else if n.stamp.Some? {
      OnlyCrossed(m, n);
    } else if m.stamp.Some? {
      OnlyCrossed(n, m);
    } else {
      RestDetermines(m.content, m, n.content, n);
    }
  }

  /** EXACTLY when the identity tells two messages apart. With senders that lack the
      separator, whatever the contents hold, two messages have one pre-image if and only if
      they are the same, or one has a sender that reads like the other's stamp. */
  lemma IdentityExact(m: Message, n: Message)
    requires Plausible(m) && Plausible(n) && SEPARATOR !in m.sender && SEPARATOR !in n.sender
    ensures PreImage(m) == PreImage(n) <==> m == n || Crossed(m, n) || Crossed(n, m)
  {
    if PreImage(m) == PreImage(n) {
      Readable(m, n);
    } else if Crossed(m, n) {
      CrossedCollide(m, n);
    } else if Crossed(n, m) {
      CrossedCollide(n, m);
    }
  }

  ghost predicate StampShaped(sender: string) {
    exists s :: Written(s) && sender == Rfc3339(s)
  }

  /** So it is injective, for ANY content, if neither sender is shaped like a stamp: the
      presence and second of the stamp, sender, content, port, and presence, width and value
      of the reference are determined. */
  lemma IdentityInjective(m: Message, n: Message)
    requires Plausible(m) && Plausible(n) && SEPARATOR !in m.sender && SEPARATOR !in n.sender
    requires !StampShaped(m.sender) && !StampShaped(n.sender)
    ensures PreImage(m) == PreImage(n) <==> m == n
  {
    IdentityExact(m, n);
  }

  /** An originating address as it is decoded: a number, or at most eleven characters of an
      alphabet without the separator. */
  predicate Address(sender: string) {
    SEPARATOR !in sender && ('-' !in sender || |sender| <= 11)
  }

  lemma AddressIsNoStamp(sender: string)
    requires Address(sender)
    ensures !StampShaped(sender)
  {
    forall s | Written(s) ensures sender != Rfc3339(s) {
      assert |Date(s)| == 10 && |Time(s)| == 9 && Date(s)[4] == '-';
      assert Rfc3339(s)[4] == '-';
    }
  }

  /** The identity of assembled messages: those from decoded addresses, whatever octets they
      carry, share a pre-image exactly when they agree in all it is made of. */
  lemma AssembledIdentity(m: InboundMessage, n: InboundMessage, civil: int -> Stamp)
    requires Decoded(m) && Decoded(n) && Address(m.sender.text) && Address(n.sender.text)
    requires Plausible(Identified(m, civil)) && Plausible(Identified(n, civil))
    ensures PreImage(Identified(m, civil)) == PreImage(Identified(n, civil)) <==>
              && m.timestampValid == n.timestampValid
              && (m.timestampValid ==> civil(m.receivedAt) == civil(n.receivedAt))
              && m.sender == n.sender && m.content == n.content && m.port == n.port
              && m.concat.Some? == n.concat.Some?
              && (m.concat.Some? ==>
                    m.concat.value.refWidth == n.concat.value.refWidth && m.concat.value.ref == n.concat.value.ref)
  {
    AddressIsNoStamp(m.sender.text);
    AddressIsNoStamp(n.sender.text);
    IdentityInjective(Identified(m, civil), Identified(n, civil));
  }

  ghost predicate Ambiguous(sender: string) {
    exists m, n :: Plausible(m) && Plausible(n) && Collide(m, n, sender)
  }

  predicate Collide(m: Message, n: Message, sender: string)
    requires Plausible(m) && Plausible(n)
  {
    m != n && m.sender == sender && n.sender == sender && PreImage(m) == PreImage(n)
  }

  lemma StampSenderCollides(s: Stamp)
    requires Written(s)
    ensures Ambiguous(Rfc3339(s))
  {
    var sender := Rfc3339(s);
    var m, n := Message(None, sender, sender + [SEPARATOR], 0, None), Message(Some(s), sender, "", 0, None);
    assert sender + [SEPARATOR] + "" == sender + [SEPARATOR];
    CrossedCollide(m, n);
    assert Collide(m, n, sender);
  }

  lemma CollideIsCrossed(m: Message, n: Message, sender: string)
    requires Plausible(m) && Plausible(n) && SEPARATOR !in sender && Collide(m, n, sender)
    ensures StampShaped(sender)
  {
    IdentityExact(m, n);
  }

  /** The condition on the sender is exact: of a sender that lacks the separator two
      different messages share a pre-image if and only if it is shaped like a stamp. */
  lemma AmbiguousIffStampShaped(sender: string)
    requires SEPARATOR !in sender
    ensures Ambiguous(sender) <==> StampShaped(sender)
  {
    forall s | Written(s) && sender == Rfc3339(s) ensures Ambiguous(sender) {
      StampSenderCollides(s);
    }
    forall m, n | Plausible(m) && Plausible(n) && Collide(m, n, sender) ensures StampShaped(sender) {
      CollideIsCrossed(m, n, sender);
    }
  }

  /** The separator of sender and content can be moved to any other in them. */
  lemma SeparatorMoves(m: Message, n: Message)
    requires Plausible(m) && n == m.(sender := n.sender, content := n.content)
    requires m.sender + [SEPARATOR] + m.content == n.sender + [SEPARATOR] + n.content
    ensures PreImage(m) == PreImage(n)
  {
    PreImageForm(m);
    PreImageForm(n);
    assert m.sender + [SEPARATOR] + m.content + [SEPARATOR] + Tail(m)
        == (m.sender + [SEPARATOR] + m.content) + [SEPARATOR] + Tail(m);
  }

  /** And so is the demand that it lacks the separator: every message of a sender with one
      shares its pre-image with a message of a sender without. */
  lemma SeparatedSenderCollides(m: Message)
    requires Plausible(m) && SEPARATOR in m.sender
    ensures exists n :: Plausible(n) && SEPARATOR !in n.sender && PreImage(n) == PreImage(m)
  {
    var i := FirstSeparator(m.sender);
    var before, rest := m.sender[..i], m.sender[i + 1..];
    var n := m.(sender := before, content := rest + [SEPARATOR] + m.content);
    CutAt(m.sender, i);
    Regroup(before, rest, m.content);
    SeparatorMoves(m, n);
  }

  lemma CutAt(s: string, i: nat)
    requires i < |s| && s[i] == SEPARATOR
    ensures s == s[..i] + [SEPARATOR] + s[i + 1..]
  {
  }

  function FirstSeparator(s: string): (i: nat)
    requires SEPARATOR in s
    ensures i < |s| && s[i] == SEPARATOR && SEPARATOR !in s[..i]
  {
    if s[0] == SEPARATOR then 0
    else
      var i := FirstSeparator(s[1..]);
      assert s[..i + 1] == [s[0]] + s[1..][..i];
      i + 1
  }
}
