/** The string functions the gateway takes from Go's standard library. */
module Text {
  import opened Options

  // ----- strings.HasPrefix and CutPrefix are <= ; strings.Cut -----

  /** The rest of the text after the first separator; none if it does not occur. */
  function After(s: string, sep: string): (rest: Option<string>)
    ensures rest.Some? ==> |rest.value| + |sep| <= |s|
  {
    if sep <= s then Some(s[|sep|..])
    else if s == "" then None
    else After(s[1..], sep)
  }

  predicate StandsAt(s: string, sep: string, j: int) {
    0 <= j <= |s| - |sep| && s[j..j + |sep|] == sep
  }

  lemma StandsLater(s: string, sep: string, j: nat)
    requires s != ""
    ensures StandsAt(s[1..], sep, j) <==> StandsAt(s, sep, j + 1)
  {
    if j <= |s| - 1 - |sep| {
      assert s[1..][j..j + |sep|] == s[j + 1..j + 1 + |sep|];
    }
  }

  lemma StandsFirst(s: string, sep: string)
    ensures sep <= s <==> StandsAt(s, sep, 0)
  {
    if |sep| <= |s| {
      assert s[0..0 + |sep|] == s[..|sep|];
    }
  }

  /** It is what follows the FIRST place at which the separator stands. */
  lemma {:induction false} AfterFirst(s: string, sep: string, i: nat)
    requires StandsAt(s, sep, i) && forall j :: 0 <= j < i ==> !StandsAt(s, sep, j)
    ensures After(s, sep) == Some(s[i + |sep|..])
    decreases i
  {
    StandsFirst(s, sep);
    if i > 0 {
      assert !StandsAt(s, sep, 0);
      StandsLater(s, sep, i - 1);
      forall j | 0 <= j < i - 1 ensures !StandsAt(s[1..], sep, j) {
        StandsLater(s, sep, j);
        assert !StandsAt(s, sep, j + 1);
      }
      AfterFirst(s[1..], sep, i - 1);
    }
  }

  /** And there is nothing if it stands nowhere. */
  lemma {:induction false} AfterNone(s: string, sep: string)
    requires forall j :: !StandsAt(s, sep, j)
    ensures After(s, sep) == None
  {
    StandsFirst(s, sep);
    assert !StandsAt(s, sep, 0);
    if s != "" {
      forall j ensures !StandsAt(s[1..], sep, j) {
        if 0 <= j {
          StandsLater(s, sep, j);
          assert !StandsAt(s, sep, j + 1);
        }
      }
      AfterNone(s[1..], sep);
    }
  }

  predicate Contains(s: string, sep: string) {
    After(s, sep).Some?
  }

  // ----- strings.Split and Join by one character -----

  function Split(s: string, sep: char): (fields: seq<string>)
    ensures fields != []
  {
    if s == "" then [""]
    else if s[0] == sep then [""] + Split(s[1..], sep)
    else
      var rest := Split(s[1..], sep);
      [[s[0]] + rest[0]] + rest[1..]
  }

  function Join(fields: seq<string>, sep: char): string
    requires fields != []
  {
    if |fields| == 1 then fields[0] else fields[0] + [sep] + Join(fields[1..], sep)
  }

  lemma {:induction false} SplitClean(s: string, sep: char)
    requires sep !in s
    ensures Split(s, sep) == [s]
  {
    if s != "" {
      assert s == [s[0]] + s[1..];
      SplitClean(s[1..], sep);
    }
  }

  /** Splitting takes off the text before the first separator. */
  lemma {:induction false} SplitFirst(a: string, sep: char, b: string)
    requires sep !in a
    ensures Split(a + [sep] + b, sep) == [a] + Split(b, sep)
  {
    var s := a + [sep] + b;
    if a == "" {
      assert s[1..] == b;
    } else {
      assert s[1..] == a[1..] + [sep] + b;
      SplitFirst(a[1..], sep, b);
      assert a == [a[0]] + a[1..];
    }
  }

  // ----- strings.TrimSpace -----

  predicate IsSpace(c: char) {
    || c == ' ' || '\t' <= c <= '\r' || c == '\U{85}' || c == '\U{A0}' || c == '\U{1680}'
    || '\U{2000}' <= c <= '\U{200A}' || c == '\U{2028}' || c == '\U{2029}' || c == '\U{202F}'
    || c == '\U{205F}' || c == '\U{3000}'
  }

  function TrimLeft(s: string): string {
    if s != "" && IsSpace(s[0]) then TrimLeft(s[1..]) else s
  }

  function TrimRight(s: string): string {
    if s != "" && IsSpace(s[|s| - 1]) then TrimRight(s[..|s| - 1]) else s
  }

  function TrimSpace(s: string): string {
    TrimRight(TrimLeft(s))
  }

  predicate AllSpace(s: string) {
    forall i :: 0 <= i < |s| ==> IsSpace(s[i])
  }

  lemma {:induction false} TrimLeftExact(s: string) returns (head: string)
    ensures s == head + TrimLeft(s) && AllSpace(head)
    ensures TrimLeft(s) == "" || !IsSpace(TrimLeft(s)[0])
  {
    head := "";
    if s != "" && IsSpace(s[0]) {
      head := TrimLeftExact(s[1..]);
      head := [s[0]] + head;
    }
  }

  lemma {:induction false} TrimRightExact(s: string) returns (tail: string)
    ensures s == TrimRight(s) + tail && AllSpace(tail)
    ensures TrimRight(s) == "" || !IsSpace(TrimRight(s)[|TrimRight(s)| - 1])
  {
    tail := "";
    if s != "" && IsSpace(s[|s| - 1]) {
      tail := TrimRightExact(s[..|s| - 1]);
      tail := tail + [s[|s| - 1]];
    }
  }

  /** Trimming takes off space at both ends, and no more. */
  lemma TrimExact(s: string) returns (head: string, tail: string)
    ensures s == head + TrimSpace(s) + tail && AllSpace(head) && AllSpace(tail)
    ensures TrimSpace(s) == "" || (!IsSpace(TrimSpace(s)[0]) && !IsSpace(TrimSpace(s)[|TrimSpace(s)| - 1]))
  {
    head := TrimLeftExact(s);
    tail := TrimRightExact(TrimLeft(s));
    if TrimSpace(s) != "" {
      assert TrimSpace(s)[0] == TrimLeft(s)[0];
    }
  }

  lemma TrimOne(s: string)
    requires s != "" && !IsSpace(s[0]) && !IsSpace(s[|s| - 1])
    ensures TrimSpace(" " + s) == s && TrimSpace(s) == s
  {
  }

  // ----- strconv.Itoa and Atoi -----

  predicate IsDigit(c: char) {
    '0' <= c <= '9'
  }

  predicate Digits(s: string) {
    s != "" && forall i :: 0 <= i < |s| ==> IsDigit(s[i])
  }

  function Value(c: char): (n: nat)
    requires IsDigit(c)
    ensures n < 10
  {
    c as int - '0' as int
  }

  function Digit(n: nat): (c: char)
    requires n < 10
    ensures IsDigit(c) && Value(c) == n
  {
    ('0' as int + n) as char
  }

  function Itoa(n: nat): (s: string)
    ensures Digits(s)
  {
    if n < 10 then [Digit(n)] else Itoa(n / 10) + [Digit(n % 10)]
  }

  function Number(s: string): (n: nat)
    requires forall i :: 0 <= i < |s| ==> IsDigit(s[i])
  {
    if s == "" then 0 else 10 * Number(s[..|s| - 1]) + Value(s[|s| - 1])
  }

  lemma {:induction false} NumberItoa(n: nat)
    ensures Number(Itoa(n)) == n
  {
    var s := Itoa(n);
    if n < 10 {
      assert s[..0] == "";
    } else {
      NumberItoa(n / 10);
      assert s[..|s| - 1] == Itoa(n / 10);
    }
  }

  /** Decimal notation: the last digit is the remainder by ten, in the usual signs. */
  lemma ItoaDecimal(n: nat, d: nat)
    requires d < 10
    ensures Itoa(10 * n + d) == (if n == 0 then "" else Itoa(n)) + ["0123456789"[d]]
  {
  }

  const MAX_INT: int := 0x7FFF_FFFF_FFFF_FFFF

  /** An optional sign and digits, of a value that fits 64 bits. */
  function Atoi(s: string): Option<int> {
    var signed := s != "" && (s[0] == '-' || s[0] == '+');
    var body := if signed then s[1..] else s;
    if !Digits(body) then None
    else
      var n: int := if s[0] == '-' then 0 - Number(body) else Number(body);
      if -MAX_INT - 1 <= n <= MAX_INT then Some(n) else None
  }

  /** A number is read back with its sign, and not if it leaves 64 bits. */
  lemma AtoiSigned(n: nat)
    ensures Atoi("+" + Itoa(n)) == Atoi(Itoa(n)) == if n <= MAX_INT then Some(n) else None
    ensures Atoi("-" + Itoa(n)) == if n <= MAX_INT + 1 then Some(0 - n) else None
  {
    NumberItoa(n);
    assert IsDigit(Itoa(n)[0]);
    assert ("+" + Itoa(n))[1..] == Itoa(n) && ("-" + Itoa(n))[1..] == Itoa(n);
  }

  lemma AtoiItoa(n: nat)
    requires n <= MAX_INT
    ensures Atoi(Itoa(n)) == Some(n)
  {
    NumberItoa(n);
    assert IsDigit(Itoa(n)[0]);
  }
}
