/**
  The parsers of store command responses and of the +CMTI head (internal/modem/store.go).
  The AT library leaks unsolicited lines into responses; the parsers have to see past them.
 */
module StoreParsing {
  import opened Options
  import opened Text
  import StoreRoute

  /** An info line of another command or an unsolicited one. */
  predicate Foreign(line: string, want: string) {
    "+" <= line && !(want <= line)
  }

  function Kept(lines: seq<string>, want: string): seq<string> {
    if lines == [] then []
    else (if Foreign(lines[0], want) then [] else [lines[0]]) + Kept(lines[1..], want)
  }

  lemma {:induction false} KeptOn(lines: seq<string>, line: string, want: string)
    ensures Kept(lines + [line], want) == Kept(lines, want) + if Foreign(line, want) then [] else [line]
  {
    if lines == [] {
      assert (lines + [line])[1..] == [];
    } else {
      var head := if Foreign(lines[0], want) then [] else [lines[0]];
      KeptOn(lines[1..], line, want);
      assert (lines + [line])[1..] == lines[1..] + [line];
      assert Kept(lines + [line], want) == head + Kept(lines[1..] + [line], want);
    }
  }

  /** What is kept is the response, if everything else leaked into it. */
  lemma {:induction false} KeptIsResponse(lines: seq<string>, want: string)
    ensures Leaked(Kept(lines, want), lines, want)
    ensures forall i :: 0 <= i < |Kept(lines, want)| ==>
              "+" <= Kept(lines, want)[i] ==> want <= Kept(lines, want)[i]
  {
    if lines != [] {
      KeptIsResponse(lines[1..], want);
      if !Foreign(lines[0], want) {
        assert Kept(lines, want)[1..] == Kept(lines[1..], want);
      } else {
        assert Kept(lines, want) == Kept(lines[1..], want);
      }
    }
  }

  /** dropURCHeads. */
  method DropURCHeads(lines: seq<string>, want: string) returns (filtered: seq<string>)
    ensures filtered == Kept(lines, want) && Leaked(filtered, lines, want)
    ensures forall i :: 0 <= i < |filtered| ==> "+" <= filtered[i] ==> want <= filtered[i]
  {
    KeptIsResponse(lines, want);
    filtered := [];
    for i := 0 to |lines|
      invariant filtered == Kept(lines[..i], want)
    {
      KeptOn(lines[..i], lines[i], want);
      assert lines[..i + 1] == lines[..i] + [lines[i]];
      if "+" <= lines[i] && !(want <= lines[i]) {
        continue;
      }
      filtered := filtered + [lines[i]];
    }
    assert lines[..|lines|] == lines;
  }

  predicate HexDigit(c: char) {
    '0' <= c <= '9' || 'a' <= c <= 'f' || 'A' <= c <= 'F'
  }

  predicate IsHex(s: string) {
    |s| % 2 == 0 && forall i :: 0 <= i < |s| ==> HexDigit(s[i])
  }

  // storedPDUFieldIndex
  const PDU_FIELD: nat := 3

  /** The positional parse of a read response without foreign lines: the body after the
      header, or a PDU carried in the header when there is none. */
  function PduOf(lines: seq<string>, want: string): Option<string> {
    if lines == [] || !(want <= lines[0]) then None
    else if |lines| > 1 && TrimSpace(lines[1]) != "" then Some(TrimSpace(lines[1]))
    else
      var fields := Split(lines[0][|want|..], ',');
      if |fields| <= PDU_FIELD then None
      else
        var pdu := TrimSpace(fields[PDU_FIELD]);
        if pdu == "" || !IsHex(pdu) then None else Some(pdu)
  }

  function StoredPdu(lines: seq<string>, want: string): Option<string> {
    PduOf(Kept(lines, want), want)
  }

  /** The response with any number of foreign lines leaked into it, at any positions. */
  predicate Leaked(response: seq<string>, lines: seq<string>, want: string)
    decreases |lines|
  {
    if lines == [] then response == []
    else
      || ("+" <= lines[0] && !(want <= lines[0]) && Leaked(response, lines[1..], want))
      || (response != [] && response[0] == lines[0] && Leaked(response[1..], lines[1..], want))
  }

  lemma {:induction false} LeakedKept(response: seq<string>, lines: seq<string>, want: string)
    requires Leaked(response, lines, want)
    ensures Kept(lines, want) == Kept(response, want)
    decreases |lines|
  {
    if lines != [] {
      if "+" <= lines[0] && !(want <= lines[0]) && Leaked(response, lines[1..], want) {
        LeakedKept(response, lines[1..], want);
      } else {
        LeakedKept(response[1..], lines[1..], want);
      }
    }
  }

  /** Leaked lines do not change what is read: neither the body, nor the absence of one. */
  lemma LeaksAreInvisible(response: seq<string>, lines: seq<string>, want: string)
    requires Leaked(response, lines, want)
    ensures StoredPdu(lines, want) == StoredPdu(response, want)
  {
    LeakedKept(response, lines, want);
  }

  /** A read response - header and PDU - gives back its PDU, whatever the header holds and
      whatever leaked into it. */
  lemma ReadGivesBody(header: string, body: string, lines: seq<string>, want: string)
    requires Leaked([want + header, body], lines, want)
    requires body != "" && body[0] != '+' && !IsSpace(body[0]) && !IsSpace(body[|body| - 1])
    ensures StoredPdu(lines, want) == Some(body)
  {
    LeaksAreInvisible([want + header, body], lines, want);
    TrimOne(body);
    var response := [want + header, body];
    assert want <= want + header;
    assert response[1..] == [body];
    assert Kept([body], want) == [body];
    assert Kept(response, want) == response;
  }

  /** The fields of a read header that may carry the PDU itself, in the fourth. */
  datatype Fields = Fields(status: string, alpha: string, length: string, pdu: string, rest: string)

  function HeaderOf(f: Fields): string {
    f.status + [','] + (f.alpha + [','] + (f.length + [','] + (f.pdu + f.rest)))
  }

  /** No field holds a comma; further fields may follow. */
  predicate Separate(f: Fields) {
    && ',' !in f.status && ',' !in f.alpha && ',' !in f.length && ',' !in f.pdu
    && (f.rest == "" || f.rest[0] == ',')
  }

  lemma FourthField(f: Fields)
    requires Separate(f)
    ensures |Split(HeaderOf(f), ',')| > 3 && Split(HeaderOf(f), ',')[3] == f.pdu
  {
    SplitFirst(f.status, ',', f.alpha + [','] + (f.length + [','] + (f.pdu + f.rest)));
    SplitFirst(f.alpha, ',', f.length + [','] + (f.pdu + f.rest));
    SplitFirst(f.length, ',', f.pdu + f.rest);
    FirstField(f.pdu, f.rest);
  }

  /** Octets in hexadecimal, at least one. */
  predicate Octets(pdu: string) {
    pdu != "" && |pdu| % 2 == 0 && forall i :: 0 <= i < |pdu| ==> pdu[i] in "0123456789abcdefABCDEF"
  }

  /** A read response of a header alone gives the PDU its fourth field carries, if that is
      octets in hexadecimal, and nothing otherwise. */
  lemma HeaderGivesPdu(f: Fields, lines: seq<string>, want: string)
    requires Leaked([want + HeaderOf(f)], lines, want) && Separate(f)
    requires f.pdu != "" && !IsSpace(f.pdu[0]) && !IsSpace(f.pdu[|f.pdu| - 1])
    ensures StoredPdu(lines, want) == if Octets(f.pdu) then Some(f.pdu) else None
  {
    var pdu, header := f.pdu, HeaderOf(f);
    LeaksAreInvisible([want + header], lines, want);
    FourthField(f);
    TrimOne(pdu);
    HeaderIsKept(want, header);
    forall i | 0 <= i < |pdu| ensures HexDigit(pdu[i]) <==> pdu[i] in "0123456789abcdefABCDEF" {
      HexDigits(pdu[i]);
    }
  }

  lemma HexDigits(c: char)
    ensures HexDigit(c) <==> c in "0123456789abcdefABCDEF"
  {
    var digits := "0123456789abcdefABCDEF";
    if '0' <= c <= '9' {
      assert digits[c as int - '0' as int] == c;
    } else if 'a' <= c <= 'f' {
      assert digits[10 + (c as int - 'a' as int)] == c;
    } else if 'A' <= c <= 'F' {
      assert digits[16 + (c as int - 'A' as int)] == c;
    }
  }

  lemma HeaderIsKept(want: string, header: string)
    ensures Kept([want + header], want) == [want + header] && (want + header)[|want|..] == header
  {
    assert want <= want + header;
  }

  /** Nor is anything read from a response that does not begin with the header. */
  lemma NoHeaderNoPdu(response: seq<string>, lines: seq<string>, want: string)
    requires Leaked(response, lines, want) && (response == [] || (!("+" <= response[0]) && !(want <= response[0])))
    ensures StoredPdu(lines, want) == None
  {
    LeaksAreInvisible(response, lines, want);
  }

  // ----- the reference of a submitted part -----

  /** The reference of a +CMGS response. */
  function MessageRef(lines: seq<string>): Option<int> {
    FirstRef(Kept(lines, "+CMGS:"))
  }

  function FirstRef(lines: seq<string>): Option<int> {
    if lines == [] then None
    else if "+CMGS:" <= lines[0] then Atoi(TrimSpace(lines[0][6..]))
    else FirstRef(lines[1..])
  }

  /** A response gives back the reference the modem wrote, whatever leaked into it. */
  lemma SubmitGivesReference(ref: nat, lines: seq<string>)
    requires ref <= MAX_INT && Leaked(["+CMGS: " + Itoa(ref)], lines, "+CMGS:")
    ensures MessageRef(lines) == Some(ref)
  {
    LeakedKept(["+CMGS: " + Itoa(ref)], lines, "+CMGS:");
    HeaderIsKept("+CMGS:", " " + Itoa(ref));
    assert "+CMGS: " + Itoa(ref) == "+CMGS:" + (" " + Itoa(ref));
    assert IsDigit(Itoa(ref)[0]) && IsDigit(Itoa(ref)[|Itoa(ref)| - 1]);
    TrimOne(Itoa(ref));
    AtoiItoa(ref);
  }

  /** Without a +CMGS line there is none. */
  lemma NoLineNoReference(lines: seq<string>)
    requires forall line :: line in lines ==> !("+CMGS:" <= line)
    ensures MessageRef(lines) == None
  {
    KeptAre(lines, "+CMGS:");
    NoneFirst(Kept(lines, "+CMGS:"));
  }

  lemma {:induction false} KeptAre(lines: seq<string>, want: string)
    ensures forall line :: line in Kept(lines, want) ==> line in lines
  {
    if lines != [] {
      KeptAre(lines[1..], want);
    }
  }

  lemma {:induction false} NoneFirst(lines: seq<string>)
    requires forall line :: line in lines ==> !("+CMGS:" <= line)
    ensures FirstRef(lines) == None
  {
    if lines != [] {
      assert lines[0] in lines && forall line :: line in lines[1..] ==> line in lines;
      NoneFirst(lines[1..]);
    }
  }

  // ----- the listing -----

  /** The index a line of the listing names, if it is a header that can be read. */
  function Index(line: string): Option<int> {
    var rest := After(line, "+CMGL:");
    if rest.None? then None
    else
      var index := Atoi(TrimSpace(Split(rest.value, ',')[0]));
      if index.None? || index.value < 0 then None else index
  }

  function Named(line: string): seq<int> {
    if Index(line).Some? then [Index(line).value] else []
  }

  function Indices(lines: seq<string>): (indices: seq<int>)
    ensures forall i :: 0 <= i < |indices| ==> 0 <= indices[i]
  {
    if lines == [] then [] else Indices(lines[..|lines| - 1]) + Named(lines[|lines| - 1])
  }

  /** listedIndices. */
  method ListedIndices(lines: seq<string>) returns (indices: seq<int>)
    ensures indices == Indices(lines)
  {
    indices := [];
    for i := 0 to |lines|
      invariant indices == Indices(lines[..i])
    {
      assert lines[..i + 1][..i] == lines[..i];
      var after := After(lines[i], "+CMGL:");
      if after.None? {
        continue;
      }
      var fields := Split(after.value, ',');
      var index := Atoi(TrimSpace(fields[0]));
      if index.None? || index.value < 0 {
        continue;
      }
      indices := indices + [index.value];
    }
    assert lines[..|lines|] == lines;
  }

  /** One line of a listing as the modem writes it: a header, or any other line. */
  datatype Line = Header(index: nat, rest: string) | Other(text: string)

  function Written(line: Line): string {
    match line
    case Header(index, rest) => "+CMGL: " + Itoa(index) + rest
    case Other(text) => text
  }

  /** The header's index is followed by its other fields, if any; no other line mentions
      the header's prefix. */
  predicate Proper(line: Line) {
    match line
    case Header(index, rest) => index <= MAX_INT && (rest == "" || rest[0] == ',')
    case Other(text) => !Contains(text, "+CMGL:")
  }

  function WrittenAll(listing: seq<Line>): seq<string> {
    if listing == [] then [] else WrittenAll(listing[..|listing| - 1]) + [Written(listing[|listing| - 1])]
  }

  function HeaderIndexOf(line: Line): seq<int> {
    if line.Header? then [line.index] else []
  }

  function HeaderIndices(listing: seq<Line>): seq<int> {
    if listing == [] then []
    else HeaderIndices(listing[..|listing| - 1]) + HeaderIndexOf(listing[|listing| - 1])
  }

  lemma FirstField(a: string, rest: string)
    requires ',' !in a && (rest == "" || rest[0] == ',')
    ensures Split(a + rest, ',')[0] == a
  {
    if rest == "" {
      assert a + rest == a;
      SplitClean(a, ',');
    } else {
      assert a + rest == a + [','] + rest[1..];
      SplitFirst(a, ',', rest[1..]);
    }
  }

  lemma HeaderIndex(index: nat, rest: string)
    requires Proper(Header(index, rest))
    ensures Index(Written(Header(index, rest))) == Some(index)
  {
    var line := Written(Header(index, rest));
    assert line == "+CMGL:" + (" " + Itoa(index) + rest);
    assert After(line, "+CMGL:") == Some(" " + Itoa(index) + rest);
    var field := " " + Itoa(index);
    FirstField(field, rest);
    assert IsDigit(Itoa(index)[0]) && IsDigit(Itoa(index)[|Itoa(index)| - 1]);
    TrimOne(Itoa(index));
    AtoiItoa(index);
  }

  lemma LineNamed(line: Line)
    requires Proper(line)
    ensures Named(Written(line)) == HeaderIndexOf(line)
  {
    if line.Header? {
      HeaderIndex(line.index, line.rest);
    }
  }

  /** Reading a listing gives back exactly the indices written, in order, whatever PDUs and
      leaked lines stand between its headers. */
  lemma {:induction false} ListingRoundTrip(listing: seq<Line>)
    requires forall i :: 0 <= i < |listing| ==> Proper(listing[i])
    ensures Indices(WrittenAll(listing)) == HeaderIndices(listing)
  {
    if listing != [] {
      var before, last := listing[..|listing| - 1], listing[|listing| - 1];
      ListingRoundTrip(before);
      LineNamed(last);
      assert WrittenAll(listing)[..|WrittenAll(before)|] == WrittenAll(before);
    }
  }

  // ----- the +CMTI head -----

  /** unicode.ToUpper on the letters whose upper case can be a letter of a store name. */
  function Upper(c: char): char {
    if 'a' <= c <= 'z' then (c as int - 32) as char else if c == '\U{17F}' then 'S' else c
  }

  function ToUpper(s: string): (t: string)
    ensures |t| == |s| && forall i :: 0 <= i < |s| ==> t[i] == Upper(s[i])
  {
    if s == "" then "" else [Upper(s[0])] + ToUpper(s[1..])
  }

  function TrimQuotes(s: string): string
    decreases |s|
  {
    if s != "" && s[0] == '"' then TrimQuotes(s[1..])
    else if s != "" && s[|s| - 1] == '"' then TrimQuotes(s[..|s| - 1])
    else s
  }

  /** storedMemoryID: two of the three stores share a number. */
  function MemoryId(name: string): (id: Option<nat>)
    ensures id.Some? <==> ToUpper(name) in {"ME", "SM", "MT"}
    ensures id.Some? ==> (id.value == 1 <==> ToUpper(name) == "MT")
  {
    var upper := ToUpper(name);
    if upper == "ME" || upper == "SM" then Some(0) else if upper == "MT" then Some(1) else None
  }

  datatype Reference = Reference(name: string, index: int)

  /** parseStoredReference. */
  function ParseReference(head: string): (parsed: Option<Reference>)
    ensures parsed.Some? ==> 0 <= parsed.value.index <= MAX_INT
  {
    var payload := After(head, "+CMTI:");
    if payload.None? then None
    else
      var fields := Split(payload.value, ',');
      if |fields| < 2 then None
      else
        CheckedReference(ToUpper(TrimQuotes(TrimSpace(fields[0]))), Atoi(TrimSpace(fields[1])))
  }

  function CheckedReference(name: string, index: Option<int>): (parsed: Option<Reference>)
    ensures parsed.Some? ==> index.Some? && 0 <= index.value && parsed == Some(Reference(name, index.value))
  {
    if MemoryId(name).None? || index.None? || index.value < 0 then None else Some(Reference(name, index.value))
  }

  lemma UpperTwice(s: string)
    ensures ToUpper(ToUpper(s)) == ToUpper(s)
  {
  }

  /** A reference that was read names one of the three stores, in upper case. */
  lemma ReferenceNamesStore(head: string)
    requires ParseReference(head).Some?
    ensures ParseReference(head).value.name in {"ME", "SM", "MT"}
  {
    UpperTwice(TrimQuotes(TrimSpace(Split(After(head, "+CMTI:").value, ',')[0])));
  }

  /** The slot that a reference names. */
  function SlotOf(reference: Reference): StoreRoute.Slot
    requires 0 <= reference.index
  {
    StoreRoute.Slot(
      match reference.name
      case "ME" => StoreRoute.ME
      case "SM" => StoreRoute.SM
      case "MT" => StoreRoute.MT
      case _ => StoreRoute.Other(reference.name),
      reference.index)
  }

  /** Of a reference that was read the number of its store is always known, and is the one
      its budget is kept under: the fallback of the route is never taken. */
  lemma ReferenceNumbered(head: string)
    requires ParseReference(head).Some?
    ensures var reference := ParseReference(head).value;
            && MemoryId(reference.name) == Some(StoreRoute.RefOf(SlotOf(reference)).memory)
            && MemoryId(reference.name) == Some(if reference.name == "MT" then 1 else 0)
  {
    ReferenceNamesStore(head);
    var name := ParseReference(head).value.name;
    UpperName(name);
  }

  /** Two notifications spend one budget if and only if they name one index, of one store
      or of ME and SM. */
  lemma BudgetSharedIff(a: string, b: string)
    requires ParseReference(a).Some? && ParseReference(b).Some?
    ensures var first, second := ParseReference(a).value, ParseReference(b).value;
            StoreRoute.RefOf(SlotOf(first)) == StoreRoute.RefOf(SlotOf(second)) <==>
              && first.index == second.index
              && (first.name == second.name || {first.name, second.name} == {"ME", "SM"})
  {
    ReferenceNamesStore(a);
    ReferenceNamesStore(b);
    NumberShared(ParseReference(a).value, ParseReference(b).value);
  }

  lemma NumberShared(a: Reference, b: Reference)
    requires a.name in {"ME", "SM", "MT"} && b.name in {"ME", "SM", "MT"} && 0 <= a.index && 0 <= b.index
    ensures StoreRoute.RefOf(SlotOf(a)) == StoreRoute.RefOf(SlotOf(b)) <==>
              a.index == b.index && (a.name == b.name || {a.name, b.name} == {"ME", "SM"})
  {
  }

  lemma HeadFields(field: string, index: nat, rest: string)
    requires ',' !in field && index <= MAX_INT && (rest == "" || rest[0] == ',')
    ensures var payload := After("+CMTI: " + field + "," + Itoa(index) + rest, "+CMTI:");
            && payload.Some?
            && |Split(payload.value, ',')| >= 2
            && Split(payload.value, ',')[0] == " " + field
            && Atoi(TrimSpace(Split(payload.value, ',')[1])) == Some(index)
  {
    var head := "+CMTI: " + field + "," + Itoa(index) + rest;
    var payload := " " + field + [','] + (Itoa(index) + rest);
    assert head == "+CMTI:" + payload;
    assert After(head, "+CMTI:") == Some(payload);
    SplitFirst(" " + field, ',', Itoa(index) + rest);
    FirstField(Itoa(index), rest);
    assert IsDigit(Itoa(index)[0]) && IsDigit(Itoa(index)[|Itoa(index)| - 1]);
    TrimOne(Itoa(index));
    AtoiItoa(index);
  }

  function Quoted(name: string, quoted: bool): string {
    if quoted then "\"" + name + "\"" else name
  }

  /** The name in any case; the long s is a lower-case S too. */
  predicate Spells(spelled: string, name: string) {
    && |spelled| == |name|
    && forall i :: 0 <= i < |name| ==>
         || spelled[i] == name[i]
         || ('A' <= name[i] <= 'Z' && spelled[i] as int == name[i] as int + 32)
         || (name[i] == 'S' && spelled[i] == '\U{17F}')
  }

  lemma UpperSpelled(spelled: string, name: string)
    requires name in {"ME", "SM", "MT"} && Spells(spelled, name)
    ensures ToUpper(spelled) == name
    ensures forall i :: 0 <= i < |spelled| ==> spelled[i] != ',' && spelled[i] != '"' && !IsSpace(spelled[i])
  {
  }

  lemma NameField(spelled: string, name: string, quoted: bool)
    requires name in {"ME", "SM", "MT"} && Spells(spelled, name)
    ensures ToUpper(TrimQuotes(TrimSpace(" " + Quoted(spelled, quoted)))) == name && ',' !in Quoted(spelled, quoted)
  {
    UpperSpelled(spelled, name);
    TrimOne(Quoted(spelled, quoted));
    QuotesTrimmed(spelled);
  }

  /** A notification of any of the stores, in any case, quoted or not, is read back. */
  lemma ReferenceRoundTrip(name: string, spelled: string, quoted: bool, index: nat, rest: string)
    requires name in {"ME", "SM", "MT"} && Spells(spelled, name)
    requires index <= MAX_INT && (rest == "" || rest[0] == ',')
    ensures ParseReference("+CMTI: " + Quoted(spelled, quoted) + "," + Itoa(index) + rest)
            == Some(Reference(name, index))
  {
    NameField(spelled, name, quoted);
    HeadFields(Quoted(spelled, quoted), index, rest);
    UpperName(name);
  }

  lemma UpperName(name: string)
    requires name in {"ME", "SM", "MT"}
    ensures ToUpper(name) == name
  {
  }

  lemma QuotesTrimmed(name: string)
    requires name != "" && name[0] != '"' && name[|name| - 1] != '"'
    ensures TrimQuotes(name) == name && TrimQuotes("\"" + name + "\"") == name
  {
    assert ("\"" + name + "\"")[1..] == name + "\"";
    assert (name + "\"")[..|name|] == name;
  }
}
