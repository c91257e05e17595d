/**
 * `parseVCard`: reads the formatted name (FN, section 6.2.1 of RFC 6350) and
 * the telephone numbers (TEL, section 6.4.1 of RFC 6350) of a shared contact,
 * line by line. Lines are split on LF only; there is no unfolding of
 * continuation lines (section 3.2 of RFC 6350) and no parameter parsing: the
 * `TEL(:|;.*:)` prefix is cut out with a regular expression and the rest is
 * trimmed.
 */
module VCard {
  import opened Optional
  import opened JsSemantics

  datatype Contact = Contact(name: string, phoneNumbers: seq<string>)

  predicate IsFnLine(line: string) {
    StartsWith(line, "FN:")
  }

  predicate IsTelLine(line: string) {
    StartsWith(line, "TEL:") || StartsWith(line, "TEL;")
  }

  // ---------------------------------------------------------------------------
  // `line.replace(/TEL(:|;.*:)/, '')`

  /** How many characters `.*` can take from the start of `t`: up to the first line terminator. */
  function RunLength(t: string): (n: nat)
    ensures n <= |t|
    ensures forall k | 0 <= k < n :: !IsLineTerminator(t[k])
    ensures n == |t| || IsLineTerminator(t[n])
    decreases |t|
  {
    if t == [] || IsLineTerminator(t[0]) then 0 else 1 + RunLength(t[1..])
  }

  /** The last index of `c` in `t`, or -1. */
  function LastIndex(t: string, c: char): (k: int)
    ensures -1 <= k < |t|
    ensures k >= 0 ==> t[k] == c
    ensures forall j | k < j < |t| :: t[j] != c
    decreases |t|
  {
    if t == [] then -1
    else if t[|t| - 1] == c then |t| - 1
    else LastIndex(t[..|t| - 1], c)
  }

  /**
   * The end of a match of `TEL(:|;.*:)` that starts at `p`, if there is one.
   * The greedy `.*` backtracks to the last ':' before the first line terminator.
   */
  function TelMatchAt(s: string, p: nat): (e: Option<nat>)
    requires p <= |s|
    ensures e.Some? ==> p + 4 <= e.value <= |s|
  {
    if !StartsWith(s[p..], "TEL") || p + 3 >= |s| then None
    else if s[p + 3] == ':' then Some(p + 4)
    else if s[p + 3] == ';' then
      var run := s[p + 4..][..RunLength(s[p + 4..])];
      var k := LastIndex(run, ':');
      if k == -1 then None else Some(p + 4 + k + 1)
    else None
  }

  /** The leftmost match at or after `p`, as (start, end). */
  function TelMatchFrom(s: string, p: nat): (m: Option<(nat, nat)>)
    requires p <= |s|
    ensures m.Some? ==> p <= m.value.0 && m.value.0 + 4 <= m.value.1 <= |s|
    decreases |s| - p
  {
    match TelMatchAt(s, p)
    case Some(e) => Some((p, e))
    case None => if p == |s| then None else TelMatchFrom(s, p + 1)
  }

  /** `line.replace(/TEL(:|;.*:)/, '')`: removes the first match, if any. */
  function StripTelPrefix(line: string): string {
    match TelMatchFrom(line, 0)
    case None => line
    case Some((p, e)) => line[..p] + line[e..]
  }

  /** The number a TEL line contributes. */
  function TelValue(line: string): string {
    Trim(StripTelPrefix(line))
  }

  /** The name an FN line sets: `line.replace('FN:', '').trim()`. */
  function FnValue(line: string): string {
    Trim(ReplaceFirst(line, "FN:", ""))
  }

  // ---------------------------------------------------------------------------
  // The line loop

  /** One step of the `forEach`: FN sets the name, TEL appends a number, anything else is ignored. */
  function ReadLine(c: Contact, line: string): Contact {
    if IsFnLine(line) then c.(name := FnValue(line))
    else if IsTelLine(line) then c.(phoneNumbers := c.phoneNumbers + [TelValue(line)])
    else c
  }

  /** The contact after reading `lines` in order from the empty contact. */
  function ParseLines(lines: seq<string>): Contact
    decreases |lines|
  {
    if lines == [] then Contact("", [])
    else ReadLine(ParseLines(lines[..|lines| - 1]), lines[|lines| - 1])
  }

  /** `parseVCard(vCardText)` */
  method ParseVCard(text: string) returns (contact: Contact)
    ensures contact == ParseLines(Split(text, '\n'))
  {
    var lines := Split(text, '\n');
    contact := Contact("", []);
    for i := 0 to |lines|
      invariant contact == ParseLines(lines[..i])
    {
      assert lines[..i + 1][..i] == lines[..i];
      contact := ReadLine(contact, lines[i]);
    }
    assert lines[..|lines|] == lines;
  }

  // ---------------------------------------------------------------------------
  // A reference description of the result

  /** The TEL lines, in order. */
  function TelLines(lines: seq<string>): seq<string>
    decreases |lines|
  {
    if lines == [] then []
    else (if IsTelLine(lines[0]) then [lines[0]] else []) + TelLines(lines[1..])
  }

  /** The last FN line, if any. */
  function LastFnLine(lines: seq<string>): Option<string>
    decreases |lines|
  {
    if lines == [] then None
    else match LastFnLine(lines[1..])
      case Some(l) => Some(l)
      case None => if IsFnLine(lines[0]) then Some(lines[0]) else None
  }

  lemma FnLineIsNotTelLine(line: string)
    requires IsFnLine(line)
    ensures !IsTelLine(line)
  {
    assert line[0] == 'F';
  }

  /** A line is recognised by its first character before anything else. */
  lemma FirstCharacterDecides(line: string)
    requires line != ""
    ensures line[0] != 'T' ==> !IsTelLine(line)
    ensures line[0] != 'F' ==> !IsFnLine(line)
  {
    if IsTelLine(line) {
      assert line[..3][0] == 'T';
    }
    if IsFnLine(line) {
      assert line[..3][0] == 'F';
    }
  }

  lemma {:induction false} TelLinesAppend(a: seq<string>, b: seq<string>)
    ensures TelLines(a + b) == TelLines(a) + TelLines(b)
    decreases |a|
  {
    if a != [] {
      assert (a + b)[1..] == a[1..] + b;
      TelLinesAppend(a[1..], b);
    } else {
      assert a + b == b;
    }
  }

  lemma {:induction false} LastFnLineAppend(a: seq<string>, x: string)
    ensures LastFnLine(a + [x]) == if IsFnLine(x) then Some(x) else LastFnLine(a)
    decreases |a|
  {
    if a != [] {
      assert (a + [x])[1..] == a[1..] + [x];
      LastFnLineAppend(a[1..], x);
    } else {
      assert a + [x] == [x];
    }
  }

  /**
   * The parsed name is the value of the last FN line ("" if there is none),
   * and the numbers are the values of the TEL lines, one per line, in order.
   */
  lemma {:induction false} ParseLinesFields(lines: seq<string>)
    ensures ParseLines(lines).name == match LastFnLine(lines) case None => "" case Some(l) => FnValue(l)
    ensures |ParseLines(lines).phoneNumbers| == |TelLines(lines)|
    ensures forall i | 0 <= i < |TelLines(lines)| :: ParseLines(lines).phoneNumbers[i] == TelValue(TelLines(lines)[i])
    decreases |lines|
  {
    if lines != [] {
      var init, x := lines[..|lines| - 1], lines[|lines| - 1];
      assert lines == init + [x];
      ParseLinesFields(init);
      TelLinesAppend(init, [x]);
      LastFnLineAppend(init, x);
      if IsFnLine(x) {
        FnLineIsNotTelLine(x);
      }
    }
  }

  // ---------------------------------------------------------------------------
  // The two TEL forms

  lemma TelValueOfSimpleLine(v: string)
    ensures StripTelPrefix("TEL:" + v) == v
  {
    var s := "TEL:" + v;
    assert s[0..][..3] == "TEL";
    assert TelMatchAt(s, 0) == Some(4);
    assert s[4..] == v;
  }

  lemma {:induction false} LastIndexOfSuffix(params: string, v: string)
    requires ':' !in v
    ensures LastIndex(params + ":" + v, ':') == |params|
    decreases |v|
  {
    var t := params + ":" + v;
    if v != [] {
      var w := v[..|v| - 1];
      assert t[|t| - 1] == v[|v| - 1];
      assert t[..|t| - 1] == params + ":" + w;
      LastIndexOfSuffix(params, w);
    }
  }

  /** A TEL line with parameters yields everything after the last ':' (the value has none). */
  lemma TelValueOfParameterLine(params: string, v: string)
    requires forall k | 0 <= k < |params| :: !IsLineTerminator(params[k])
    requires forall k | 0 <= k < |v| :: !IsLineTerminator(v[k])
    requires ':' !in v
    ensures StripTelPrefix("TEL;" + params + ":" + v) == v
  {
    var s := "TEL;" + params + ":" + v;
    var rest := params + ":" + v;
    assert s[4..] == rest;
    assert s[0..][..3] == "TEL";
    assert RunLength(rest) == |rest|;
    assert rest[..|rest|] == rest;
    LastIndexOfSuffix(params, v);
    assert TelMatchAt(s, 0) == Some(4 + |params| + 1);
    assert s[4 + |params| + 1..] == v;
  }

  // ---------------------------------------------------------------------------
  // Round trip

  const CellParams: string := "TYPE=CELL"

  /** The TEL line a contact card carries for one number. */
  function TelLineFor(number: string): string {
    "TEL;" + CellParams + ":" + number
  }

  /** A minimal vCard 3.0 for a contact, one property per line. */
  function CardLines(c: Contact): seq<string> {
    ["BEGIN:VCARD", "VERSION:3.0", "FN:" + c.name]
      + TelLinesFor(c.phoneNumbers)
      + ["END:VCARD"]
  }

  function Render(c: Contact): string {
    Join(CardLines(c), '\n')
  }

  /** A field that survives a render-then-parse: one line, nothing to trim. */
  predicate PlainField(s: string) {
    IsTrimmed(s) && forall k | 0 <= k < |s| :: !IsLineTerminator(s[k])
  }

  predicate Renderable(c: Contact) {
    && PlainField(c.name)
    && forall i | 0 <= i < |c.phoneNumbers| :: PlainField(c.phoneNumbers[i]) && ':' !in c.phoneNumbers[i]
  }

  lemma {:induction false} TelLinesOfTelLines(numbers: seq<string>)
    ensures TelLines(TelLinesFor(numbers))
         == TelLinesFor(numbers)
    decreases |numbers|
  {
    var tels := TelLinesFor(numbers);
    if numbers != [] {
      TelLinesOfTelLines(numbers[1..]);
      assert tels[1..] == TelLinesFor(numbers[1..]);
      assert StartsWith(tels[0], "TEL;");
    }
  }

  lemma {:induction false} NoFnLineAmongTelLines(numbers: seq<string>)
    ensures LastFnLine(TelLinesFor(numbers)) == None
    decreases |numbers|
  {
    var tels := TelLinesFor(numbers);
    if numbers != [] {
      NoFnLineAmongTelLines(numbers[1..]);
      assert tels[1..] == TelLinesFor(numbers[1..]);
      assert tels[0][0] == 'T';
    }
  }

  /** The TEL lines of a card, one per number, in order. */
  function TelLinesFor(numbers: seq<string>): seq<string> {
    seq(|numbers|, i requires 0 <= i < |numbers| => TelLineFor(numbers[i]))
  }

  lemma CardLinesAreSeparatorFree(c: Contact)
    requires Renderable(c)
    ensures forall k | 0 <= k < |CardLines(c)| :: '\n' !in CardLines(c)[k]
  {
    var lines := CardLines(c);
    forall k | 0 <= k < |lines|
      ensures '\n' !in lines[k]
    {
      if 3 <= k < 3 + |c.phoneNumbers| {
        var n := c.phoneNumbers[k - 3];
        assert lines[k] == TelLineFor(n);
        assert forall j | 0 <= j < |n| :: n[j] != '\n';
      } else if k == 2 {
        assert forall j | 0 <= j < |c.name| :: c.name[j] != '\n';
      }
    }
  }

  lemma CardTelLines(c: Contact)
    ensures TelLines(CardLines(c)) == TelLinesFor(c.phoneNumbers)
  {
    var head := ["BEGIN:VCARD", "VERSION:3.0", "FN:" + c.name];
    var tels := TelLinesFor(c.phoneNumbers);
    assert CardLines(c) == head + tels + ["END:VCARD"];
    TelLinesAppend(head, tels);
    TelLinesAppend(head + tels, ["END:VCARD"]);
    TelLinesOfTelLines(c.phoneNumbers);
    FirstCharacterDecides("BEGIN:VCARD");
    FirstCharacterDecides("VERSION:3.0");
    FirstCharacterDecides("FN:" + c.name);
    FirstCharacterDecides("END:VCARD");
    assert TelLines(head[2..]) == [] by {
      assert head[2..][1..] == [];
    }
    assert TelLines(head[1..]) == [] by {
      assert head[1..][1..] == head[2..];
    }
    assert TelLines(head) == [];
    assert TelLines(["END:VCARD"]) == [] by {
      assert ["END:VCARD"][1..] == [];
    }
  }

  lemma CardFnLine(c: Contact)
    ensures LastFnLine(CardLines(c)) == Some("FN:" + c.name)
  {
    var head := ["BEGIN:VCARD", "VERSION:3.0", "FN:" + c.name];
    var tels := TelLinesFor(c.phoneNumbers);
    assert CardLines(c) == (head + tels) + ["END:VCARD"];
    LastFnLineAppend(head + tels, "END:VCARD");
    NoFnLineAmongTelLines(c.phoneNumbers);
    LastFnLineAppendAll(head, tels);
    FirstCharacterDecides("BEGIN:VCARD");
    FirstCharacterDecides("VERSION:3.0");
    FirstCharacterDecides("END:VCARD");
    assert IsFnLine("FN:" + c.name) by {
      assert ("FN:" + c.name)[..3] == "FN:";
    }
    assert LastFnLine(head[2..]) == Some("FN:" + c.name) by {
      assert head[2..][1..] == [];
    }
    assert head[1..][1..] == head[2..];
    assert LastFnLine(head[1..]) == Some("FN:" + c.name);
    assert LastFnLine(head) == Some("FN:" + c.name);
  }

  lemma TelValueOfCardLine(n: string)
    requires PlainField(n) && ':' !in n
    ensures TelValue(TelLineFor(n)) == n
  {
    assert forall k | 0 <= k < |CellParams| :: !IsLineTerminator(CellParams[k]);
    TelValueOfParameterLine(CellParams, n);
    TrimOfTrimmed(n);
  }

  lemma FnValueOfCardLine(name: string)
    requires PlainField(name)
    ensures FnValue("FN:" + name) == name
  {
    ReplacePrefix("FN:", name);
    TrimOfTrimmed(name);
  }

  /** Parsing a rendered card gives back the contact's name and numbers. */
  lemma ParseRender(c: Contact)
    requires Renderable(c)
    ensures ParseLines(Split(Render(c), '\n')) == c
  {
    CardLinesAreSeparatorFree(c);
    SplitJoin(CardLines(c), '\n');
    ParseCardLines(c);
  }

  /** Reading the lines of a card, one by one, gives back the contact. */
  lemma ParseCardLines(c: Contact)
    requires Renderable(c)
    ensures ParseLines(CardLines(c)) == c
  {
    var lines := CardLines(c);
    ParseLinesFields(lines);
    CardFnLine(c);
    FnValueOfCardLine(c.name);
    ParsedNumbers(c);
  }

  lemma ParsedNumbers(c: Contact)
    requires Renderable(c)
    ensures ParseLines(CardLines(c)).phoneNumbers == c.phoneNumbers
  {
    var lines := CardLines(c);
    ParseLinesFields(lines);
    CardTelLines(c);
    var parsed := ParseLines(lines);
    forall i | 0 <= i < |c.phoneNumbers|
      ensures parsed.phoneNumbers[i] == c.phoneNumbers[i]
    {
      assert TelLines(lines)[i] == TelLineFor(c.phoneNumbers[i]);
      TelValueOfCardLine(c.phoneNumbers[i]);
    }
  }

  lemma {:induction false} LastFnLineAppendAll(a: seq<string>, b: seq<string>)
    requires LastFnLine(b) == None
    ensures LastFnLine(a + b) == LastFnLine(a)
    decreases |a|
  {
    if a != [] {
      assert (a + b)[1..] == a[1..] + b;
      LastFnLineAppendAll(a[1..], b);
    } else {
      assert a + b == b;
    }
  }
}
