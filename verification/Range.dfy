/** The Range header: parsing it against an object's size, and serving the range
    it names. */
module Range {
  import opened Types

  newtype int64 = x: int | -0x8000_0000_0000_0000 <= x < 0x8000_0000_0000_0000

  const LIMIT := 0x8000_0000_0000_0000

  datatype Outcome = Ignore | Unsatisfiable | Serve(offset: int64, length: int64)

  // ---- text --------------------------------------------------------------

  predicate IsDigit(c: char) {
    '0' <= c <= '9'
  }

  predicate AllDigits(s: string) {
    forall i :: 0 <= i < |s| ==> IsDigit(s[i])
  }

  function Value(s: string): nat
    requires AllDigits(s)
  {
    if s == "" then 0 else 10 * Value(s[..|s| - 1]) + (s[|s| - 1] as int - '0' as int)
  }

  // strconv.ParseInt(s, 10, 64): an optional sign, then digits; None is any error.
  function ParseInt(s: string): Option<int64> {
    var digits := if s != "" && (s[0] == '+' || s[0] == '-') then s[1..] else s;
    if digits == "" || !AllDigits(digits) then None
    else
      var v: int := if s[0] == '-' then 0 - Value(digits) else Value(digits);
      if -LIMIT <= v < LIMIT then Some(v as int64) else None
  }

  // unicode.IsSpace
  predicate IsSpace(c: char) {
    || '\t' <= c <= '\r' || c == ' ' || c == '\U{85}' || c == '\U{A0}' || c == '\U{1680}'
    || '\U{2000}' <= c <= '\U{200A}' || c == '\U{2028}' || c == '\U{2029}' || c == '\U{202F}'
    || c == '\U{205F}' || c == '\U{3000}'
  }

  function TrimLeft(s: string): string {
    if s != "" && IsSpace(s[0]) then TrimLeft(s[1..]) else s
  }

  function TrimRight(s: string): string {
    if s != "" && IsSpace(s[|s| - 1]) then TrimRight(s[..|s| - 1]) else s
  }

  function TrimSpace(s: string): string {
    TrimRight(TrimLeft(s))
  }

  // The part of s before the first c, if c occurs.
  function Before(s: string, c: char): (r: Option<string>)
    ensures r.None? <==> c !in s
    ensures r.Some? ==> |r.value| < |s| && s[..|r.value|] == r.value && s[|r.value|] == c && c !in r.value
  {
    if s == "" then None
    else if s[0] == c then Some("")
    else
      var t := Before(s[1..], c);
      if t.None? then None else Some([s[0]] + t.value)
  }

  const PREFIX := "bytes="

  // ---- the parser --------------------------------------------------------

  // All arithmetic is on int64, so none of it can overflow.
  function ParseSingleRange(header: string, size: int64): (r: Outcome)
    requires size >= 0
    ensures r.Serve? ==> 0 <= r.offset && 1 <= r.length && r.offset as int + r.length as int <= size as int
  {
    if !(PREFIX <= header) then Ignore
    else
      var list := header[|PREFIX|..];
      var first := Before(list, ',');
      var spec := TrimSpace(if first.Some? then first.value else list);
      ParseRangeSpec(spec, size)
  }

  // One range-spec, its white space already trimmed.
  function ParseRangeSpec(spec: string, size: int64): (r: Outcome)
    requires size >= 0
    ensures r.Serve? ==> 0 <= r.offset && 1 <= r.length && r.offset as int + r.length as int <= size as int
  {
    var dash := Before(spec, '-');
    if dash.None? then Ignore
    else
      var startStr, endStr := dash.value, spec[|dash.value| + 1..];
      if startStr == "" then
        var n := ParseInt(endStr);
        if n.None? || n.value < 0 then Ignore
        else if n.value == 0 || size == 0 then Unsatisfiable
        else
          var len := if n.value > size then size else n.value;
          Serve(size - len, len)
      else
        var start := ParseInt(startStr);
        if start.None? || start.value < 0 then Ignore
        else if endStr == "" then
          if start.value >= size then Unsatisfiable else Serve(start.value, size - start.value)
        else
          var end := ParseInt(endStr);
          if end.None? || end.value < start.value then Ignore else Between(start.value, end.value, size)
  }

  function Between(start: int64, end: int64, size: int64): (r: Outcome)
    requires 0 <= start <= end && size >= 0
    ensures r.Serve? ==> 0 <= r.offset && 1 <= r.length && r.offset as int + r.length as int <= size as int
  {
    if start >= size then Unsatisfiable
    else
      var last := if end >= size then size - 1 else end;
      Serve(start, last - start + 1)
  }

  // ---- RFC 9110, section 14.1.2 -------------------------------------------

  // A range-spec: first-pos "-" [last-pos], or "-" suffix-length.
  datatype Spec = From(first: string) | FromTo(first: string, last: string) | Suffix(length: string) {
    predicate WellFormed() {
      match this
      case From(a) => a != "" && AllDigits(a)
      case FromTo(a, b) => a != "" && AllDigits(a) && b != "" && AllDigits(b)
      case Suffix(n) => n != "" && AllDigits(n)
    }

    function Text(): string {
      match this
      case From(a) => a + "-"
      case FromTo(a, b) => a + "-" + b
      case Suffix(n) => "-" + n
    }
  }

  datatype Meaning = Invalid | NotSatisfiable | Bytes(first: nat, count: nat)

  // What the RFC says the range selects from a representation of this size: an
  // int-range is invalid if last-pos is less than first-pos, satisfiable if
  // first-pos is less than the size, and cut off at its end; a suffix-range is
  // satisfiable if its length is not zero, and selects at most everything.
  function Selects(s: Spec, size: nat): Meaning
    requires s.WellFormed()
  {
    match s
    case From(a) =>
      if Value(a) < size then Bytes(Value(a), size - Value(a)) else NotSatisfiable
    case FromTo(a, b) =>
      if Value(b) < Value(a) then Invalid
      else if Value(a) >= size then NotSatisfiable
      else Bytes(Value(a), (if Value(b) < size then Value(b) + 1 else size) - Value(a))
    case Suffix(n) =>
      if Value(n) == 0 then NotSatisfiable
      else if Value(n) >= size then Bytes(0, size)
      else Bytes(size - Value(n), Value(n))
  }

  predicate Agrees(o: Outcome, m: Meaning) {
    match o
    case Ignore => m.Invalid?
    case Unsatisfiable => m.NotSatisfiable?
    case Serve(offset, length) => offset >= 0 && length >= 0 && m == Bytes(offset as int, length as int)
  }

  // Optional white space, as the RFC's list syntax allows around an element.
  predicate Ows(s: string) {
    forall i :: 0 <= i < |s| ==> s[i] == ' ' || s[i] == '\t'
  }

  function Header(s: Spec, left: string, right: string): string {
    "bytes=" + left + s.Text() + right
  }

  // The end of the header, or the rest of a list.
  predicate Tail(s: string) {
    s != "" ==> s[0] == ','
  }

  // Every number in the header fits a signed 64-bit integer.
  predicate Fits(s: Spec)
    requires s.WellFormed()
  {
    match s
    case From(a) => Value(a) < 0x8000_0000_0000_0000
    case FromTo(a, b) => Value(a) < 0x8000_0000_0000_0000 && Value(b) < 0x8000_0000_0000_0000
    case Suffix(n) => Value(n) < 0x8000_0000_0000_0000
  }

  // ---- what the code takes for a range ------------------------------------

  // The 25 characters that are trimmed, far more than the RFC's two.
  const BLANKS :=
    "\t\n\U{B}\U{C}\r \U{85}\U{A0}\U{1680}\U{2000}\U{2001}\U{2002}\U{2003}\U{2004}\U{2005}\U{2006}" +
    "\U{2007}\U{2008}\U{2009}\U{200A}\U{2028}\U{2029}\U{202F}\U{205F}\U{3000}"

  predicate Blank(s: string) {
    forall i :: 0 <= i < |s| ==> s[i] in BLANKS
  }

  // A number may carry a plus sign, and a zero a minus sign.
  predicate Signed(s: string, digits: string)
    requires AllDigits(digits)
  {
    s == digits || s == "+" + digits || (s == "-" + digits && Value(digits) == 0)
  }

  // `x-y` is how the code lets this range be written.
  predicate Written(s: Spec, x: string, y: string)
    requires s.WellFormed()
  {
    match s
    case From(a) => (x == a || x == "+" + a) && y == ""
    case FromTo(a, b) => (x == a || x == "+" + a) && Signed(y, b)
    case Suffix(n) => x == "" && Signed(y, n)
  }

  predicate Form(header: string, s: Spec, x: string, y: string, left: string, right: string, tail: string) {
    && s.WellFormed() && Written(s, x, y) && Blank(left) && Blank(right) && Tail(tail)
    && header == "bytes=" + (left + (x + "-" + y) + right + tail)
  }

  // ---- text lemmas -------------------------------------------------------

  lemma BlankIsSpace(c: char)
    ensures IsSpace(c) <==> c in BLANKS
  {
    assert |BLANKS| == 25;
    if IsSpace(c) {
      var i := if c <= '\r' then c as int - 9
               else if c == ' ' then 5
               else if c == '\U{85}' then 6
               else if c == '\U{A0}' then 7
               else if c == '\U{1680}' then 8
               else if c <= '\U{200A}' then c as int - 0x1FF7
               else if c <= '\U{2029}' then c as int - 0x2014
               else if c == '\U{202F}' then 22
               else if c == '\U{205F}' then 23
               else 24;
      assert BLANKS[i] == c;
    }
  }

  lemma {:induction false} TrimLeftBlank(ws: string, t: string)
    requires Blank(ws) && t != "" && !IsSpace(t[0])
    ensures TrimLeft(ws + t) == t
  {
    if ws == "" {
      assert ws + t == t;
    } else {
      BlankIsSpace(ws[0]);
      assert (ws + t)[1..] == ws[1..] + t;
      TrimLeftBlank(ws[1..], t);
    }
  }

  lemma {:induction false} TrimRightBlank(t: string, ws: string)
    requires Blank(ws) && t != "" && !IsSpace(t[|t| - 1])
    ensures TrimRight(t + ws) == t
  {
    if ws == "" {
      assert t + ws == t;
    } else {
      BlankIsSpace(ws[|ws| - 1]);
      assert (t + ws)[..|t + ws| - 1] == t + ws[..|ws| - 1];
      TrimRightBlank(t, ws[..|ws| - 1]);
    }
  }

  lemma TrimBlank(left: string, t: string, right: string)
    requires Blank(left) && Blank(right) && t != "" && !IsSpace(t[0]) && !IsSpace(t[|t| - 1])
    ensures TrimSpace(left + t + right) == t
  {
    assert left + t + right == left + (t + right);
    TrimLeftBlank(left, t + right);
    TrimRightBlank(t, right);
  }

  lemma {:induction false} TrimmedLeft(s: string) returns (left: string)
    ensures Blank(left) && s == left + TrimLeft(s)
  {
    TrimLeftStep(s);
    hide TrimLeft;
    if s != "" && IsSpace(s[0]) {
      var l := TrimmedLeft(s[1..]);
      left := [s[0]] + l;
      BlankCons(s[0], l);
      hide Blank, IsSpace;
      assert s == [s[0]] + s[1..];
      Joined([s[0]], l, TrimLeft(s[1..]));
    } else {
      left := "";
    }
  }

  lemma TrimLeftStep(s: string)
    ensures TrimLeft(s) == if s != "" && IsSpace(s[0]) then TrimLeft(s[1..]) else s
  {
  }

  lemma BlankCons(c: char, s: string)
    requires Blank(s) && IsSpace(c)
    ensures Blank([c] + s)
  {
    BlankIsSpace(c);
    hide IsSpace;
  }

  lemma {:induction false} TrimmedRight(s: string) returns (right: string)
    ensures Blank(right) && s == TrimRight(s) + right
  {
    TrimRightStep(s);
    hide TrimRight;
    if s != "" && IsSpace(s[|s| - 1]) {
      var n := |s| - 1;
      var r := TrimmedRight(s[..n]);
      right := r + [s[n]];
      BlankSnoc(r, s[n]);
      hide Blank, IsSpace;
      assert s == s[..n] + [s[n]];
      Joined(TrimRight(s[..n]), r, [s[n]]);
    } else {
      right := "";
    }
  }

  lemma TrimRightStep(s: string)
    ensures TrimRight(s) == if s != "" && IsSpace(s[|s| - 1]) then TrimRight(s[..|s| - 1]) else s
  {
  }

  lemma BlankSnoc(s: string, c: char)
    requires Blank(s) && IsSpace(c)
    ensures Blank(s + [c])
  {
    BlankIsSpace(c);
    hide IsSpace;
  }

  lemma {:induction false} BeforeFirst(a: string, c: char, b: string)
    requires c !in a
    ensures Before(a + [c] + b, c) == Some(a)
  {
    if a == "" {
    } else {
      assert (a + [c] + b)[1..] == a[1..] + [c] + b;
      BeforeFirst(a[1..], c, b);
      assert [a[0]] + a[1..] == a;
    }
  }

  lemma ParseSigned(s: string, digits: string)
    requires digits != "" && AllDigits(digits) && Signed(s, digits)
    ensures ParseInt(s) == if Value(digits) < LIMIT then Some(Value(digits) as int64) else None
  {
    assert s != digits ==> s[1..] == digits;
  }

  // What a number that is not negative looks like.
  lemma ParsedSigned(s: string) returns (digits: string)
    requires ParseInt(s).Some? && ParseInt(s).value >= 0
    ensures digits != "" && AllDigits(digits) && Signed(s, digits) && Value(digits) == ParseInt(s).value as int
  {
    digits := if s[0] == '+' || s[0] == '-' then s[1..] else s;
    assert s != digits ==> s == [s[0]] + digits;
  }

  // ---- the parser against the RFC -----------------------------------------

  ghost predicate ParsesTo(r: Outcome, s: Spec, size: int64)
    requires s.WellFormed() && size >= 0
  {
    if !Fits(s) then r.Ignore?
    else if s.Suffix? && size == 0 then r.Unsatisfiable?
    else Agrees(r, Selects(s, size as int))
  }

  lemma BetweenMeans(a: string, b: string, size: int64)
    requires FromTo(a, b).WellFormed() && size >= 0 && Fits(FromTo(a, b)) && Value(a) <= Value(b)
    ensures Agrees(Between(Value(a) as int64, Value(b) as int64, size), Selects(FromTo(a, b), size as int))
  {
    hide Value;
  }

  lemma ParseFrom(a: string, x: string, size: int64)
    requires From(a).WellFormed() && Written(From(a), x, "") && size >= 0
    ensures ParsesTo(ParseRangeSpec(x + "-", size), From(a), size)
  {
    assert x + "-" == x + ['-'] + "";
    BeforeFirst(x, '-', "");
    ParseSigned(x, a);
    hide ParseInt, Value, Before, AllDigits;
  }

  lemma ParseFromTo(a: string, b: string, x: string, y: string, size: int64)
    requires FromTo(a, b).WellFormed() && Written(FromTo(a, b), x, y) && size >= 0
    ensures ParsesTo(ParseRangeSpec(x + "-" + y, size), FromTo(a, b), size)
  {
    var text := x + "-" + y;
    BeforeFirst(x, '-', y);
    assert text[|x| + 1..] == y;
    ParseSigned(x, a);
    ParseSigned(y, b);
    hide ParseInt, Value, Before, Between, AllDigits;
    if Fits(FromTo(a, b)) && Value(a) <= Value(b) {
      assert ParseRangeSpec(text, size) == Between(Value(a) as int64, Value(b) as int64, size);
      BetweenMeans(a, b, size);
    } else {
      assert ParseRangeSpec(text, size).Ignore?;
    }
  }

  lemma ParseSuffix(n: string, y: string, size: int64)
    requires Suffix(n).WellFormed() && Written(Suffix(n), "", y) && size >= 0
    ensures ParsesTo(ParseRangeSpec("-" + y, size), Suffix(n), size)
  {
    assert "-" + y == "" + ['-'] + y;
    BeforeFirst("", '-', y);
    assert ("-" + y)[1..] == y;
    ParseSigned(y, n);
    hide ParseInt, Value, Before, AllDigits;
  }

  lemma ParseWritten(s: Spec, x: string, y: string, size: int64)
    requires s.WellFormed() && Written(s, x, y) && size >= 0
    ensures ParsesTo(ParseRangeSpec(x + "-" + y, size), s, size)
  {
    hide ParsesTo, ParseRangeSpec;
    match s
    case From(a) =>
      assert x + "-" + y == x + "-";
      ParseFrom(a, x, size);
    case FromTo(a, b) => ParseFromTo(a, b, x, y, size);
    case Suffix(n) =>
      assert x + "-" + y == "-" + y;
      ParseSuffix(n, y, size);
  }

  // The first element of the list, without the white space around it.
  lemma FirstElement(left: string, text: string, right: string, tail: string)
    requires Blank(left) && Blank(right) && Tail(tail) && ',' !in text
    requires text != "" && !IsSpace(text[0]) && !IsSpace(text[|text| - 1])
    ensures var list := left + text + right + tail;
      var first := Before(list, ',');
      TrimSpace(if first.Some? then first.value else list) == text
  {
    var list, element := left + text + right + tail, left + text + right;
    assert ',' !in BLANKS;
    assert ',' !in element;
    if tail == "" {
      assert list == element;
    } else {
      assert list == element + [','] + tail[1..];
      BeforeFirst(element, ',', tail[1..]);
    }
    TrimBlank(left, text, right);
  }

  // A header of this form is read as its range, or its first.
  lemma ParseForm(header: string, s: Spec, x: string, y: string, left: string, right: string, tail: string, size: int64)
    requires Form(header, s, x, y, left, right, tail) && size >= 0
    ensures ParsesTo(ParseSingleRange(header, size), s, size)
  {
    var text := x + "-" + y;
    assert header[|PREFIX|..] == left + text + right + tail;
    assert ',' !in text && !IsSpace(text[0]) && !IsSpace(text[|text| - 1]);
    FirstElement(left, text, right, tail);
    hide ParseRangeSpec, ParsesTo, TrimSpace, Before;
    ParseWritten(s, x, y, size);
  }

  // A range that the parser does not ignore: the numbers fit, and are not reversed.
  predicate Proper(s: Spec)
    requires s.WellFormed()
  {
    Fits(s) && (s.FromTo? ==> Value(s.first) <= Value(s.last))
  }

  lemma CutAtDash(text: string) returns (x: string, y: string)
    requires '-' in text
    ensures x == Before(text, '-').value && y == text[|x| + 1..] && text == x + "-" + y && '-' !in x
  {
    x := Before(text, '-').value;
    y := text[|x| + 1..];
  }

  lemma NoMinus(x: string, digits: string)
    requires AllDigits(digits) && Signed(x, digits) && '-' !in x
    ensures x == digits || x == "+" + digits
  {
    assert ("-" + digits)[0] == '-';
  }

  // What the parser has read when it does not ignore a text.
  lemma NumbersRead(text: string, x: string, y: string, size: int64)
    requires size >= 0 && !ParseRangeSpec(text, size).Ignore? && '-' in text
    requires x == Before(text, '-').value && y == text[|x| + 1..]
    ensures x == "" ==> ParseInt(y).Some? && ParseInt(y).value >= 0
    ensures x != "" ==> ParseInt(x).Some? && ParseInt(x).value >= 0
    ensures x != "" && y != "" ==> ParseInt(y).Some? && ParseInt(y).value >= ParseInt(x).value
  {
    hide ParseInt, Between;
  }

  lemma SuffixRead(y: string) returns (s: Spec)
    requires ParseInt(y).Some? && ParseInt(y).value >= 0
    ensures s.WellFormed() && Written(s, "", y) && Proper(s)
  {
    var n := ParsedSigned(y);
    hide ParseInt, Value, AllDigits, Signed;
    s := Suffix(n);
  }

  lemma PositionsRead(x: string, y: string) returns (s: Spec)
    requires '-' !in x && ParseInt(x).Some? && ParseInt(x).value >= 0
    requires y != "" ==> ParseInt(y).Some? && ParseInt(y).value >= ParseInt(x).value
    ensures s.WellFormed() && Written(s, x, y) && Proper(s)
  {
    var a := ParsedSigned(x);
    NoMinus(x, a);
    hide ParseInt, Value, AllDigits, Signed;
    if y == "" {
      s := From(a);
    } else {
      var b := ParsedSigned(y);
      s := FromTo(a, b);
    }
  }

  lemma NotIgnored(text: string, size: int64) returns (s: Spec, x: string, y: string)
    requires size >= 0 && !ParseRangeSpec(text, size).Ignore?
    ensures s.WellFormed() && Written(s, x, y) && text == x + "-" + y && Proper(s)
  {
    x, y := CutAtDash(text);
    NumbersRead(text, x, y, size);
    hide ParseRangeSpec, Before, ParseInt, Written, Proper, Spec.WellFormed;
    if x == "" {
      s := SuffixRead(y);
    } else {
      s := PositionsRead(x, y);
    }
  }

  lemma Joined(a: string, b: string, c: string)
    ensures a + (b + c) == a + b + c
  {
  }

  lemma CutBlank(s: string) returns (left: string, text: string, right: string)
    ensures Blank(left) && Blank(right) && s == left + text + right && text == TrimSpace(s)
  {
    left := TrimmedLeft(s);
    right := TrimmedRight(TrimLeft(s));
    text := TrimSpace(s);
    hide TrimLeft, TrimRight, Blank;
    Joined(left, text, right);
  }

  // The list cut into its first element, without white space, and the rest.
  lemma CutAtComma(list: string) returns (left: string, text: string, right: string, tail: string)
    ensures Blank(left) && Blank(right) && Tail(tail) && list == left + text + right + tail
    ensures var first := Before(list, ',');
      text == TrimSpace(if first.Some? then first.value else list)
  {
    var first := Before(list, ',');
    var element := if first.Some? then first.value else list;
    tail := list[|element|..];
    assert list == element + tail && Tail(tail);
    hide TrimLeft, TrimRight, TrimSpace, Before, Blank, Tail;
    left, text, right := CutBlank(element);
  }

  lemma FormOf(header: string, size: int64)
    requires size >= 0 && !ParseSingleRange(header, size).Ignore?
    ensures exists s, x, y, left, right, tail :: Form(header, s, x, y, left, right, tail) && Proper(s)
  {
    var list := header[|PREFIX|..];
    var left, text, right, tail := CutAtComma(list);
    var s, x, y := NotIgnored(text, size);
    assert header == "bytes=" + list;
    hide ParseRangeSpec, TrimSpace, Before, Written, Value, Fits, Blank;
    assert Form(header, s, x, y, left, right, tail);
  }

  lemma FormActs(header: string, s: Spec, x: string, y: string, left: string, right: string, tail: string, size: int64)
    requires Form(header, s, x, y, left, right, tail) && size >= 0
    ensures ParseSingleRange(header, size).Ignore? <==> !Proper(s)
  {
    hide ParseSingleRange, Value;
    ParseForm(header, s, x, y, left, right, tail, size);
  }

  // Exactly the headers that are acted on, out of all strings.
  lemma ActedOn(header: string, size: int64)
    requires size >= 0
    ensures !ParseSingleRange(header, size).Ignore? <==>
      exists s, x, y, left, right, tail :: Form(header, s, x, y, left, right, tail) && Proper(s)
  {
    hide ParseSingleRange, Value, Written, Fits, Proper;
    if !ParseSingleRange(header, size).Ignore? {
      FormOf(header, size);
    }
    forall s, x, y, left, right, tail | Form(header, s, x, y, left, right, tail) && Proper(s)
      ensures !ParseSingleRange(header, size).Ignore?
    {
      FormActs(header, s, x, y, left, right, tail, size);
    }
  }

  lemma HeaderForm(s: Spec, left: string, right: string, tail: string)
    ensures Header(s, left, right) + tail == "bytes=" + (left + s.Text() + right + tail)
  {
  }

  lemma AsWritten(s: Spec) returns (x: string, y: string)
    requires s.WellFormed()
    ensures Written(s, x, y) && s.Text() == x + "-" + y
  {
    match s
    case From(a) => x, y := a, "";
    case FromTo(a, b) => x, y := a, b;
    case Suffix(n) => x, y := "", n;
  }

  // What the parser makes of any header of the RFC's form; of a list, the first
  // range counts.
  lemma ParseSpec(s: Spec, left: string, right: string, tail: string, size: int64)
    requires s.WellFormed() && Ows(left) && Ows(right) && Tail(tail) && size >= 0
    ensures ParsesTo(ParseSingleRange(Header(s, left, right) + tail, size), s, size)
  {
    var x, y := AsWritten(s);
    assert ' ' in BLANKS && '\t' in BLANKS;
    HeaderForm(s, left, right, tail);
    hide ParsesTo, ParseSingleRange, Header, Written, Spec.Text;
    ParseForm(Header(s, left, right) + tail, s, x, y, left, right, tail, size);
  }

  // The parser agrees with the RFC on every range, or the first of a list, except two families:
  // numbers too large for 64 bits, which it ignores (harmlessly so only when
  // the range is invalid anyway), and a nonempty suffix of an empty object.
  lemma RfcAgreement(s: Spec, left: string, right: string, tail: string, size: int64)
    requires s.WellFormed() && Ows(left) && Ows(right) && Tail(tail) && size >= 0
    ensures Agrees(ParseSingleRange(Header(s, left, right) + tail, size), Selects(s, size as int)) <==>
      if Fits(s) then !(s.Suffix? && size == 0 && Value(s.length) > 0)
      else s.FromTo? && Value(s.last) < Value(s.first)
  {
    ParseSpec(s, left, right, tail, size);
  }

  // ---- printing ----------------------------------------------------------

  function Decimal(n: nat): (s: string)
    ensures s != "" && AllDigits(s)
  {
    var d := [('0' as int + n % 10) as char];
    if n < 10 then d else Decimal(n / 10) + d
  }

  lemma {:induction false} DecimalValue(n: nat)
    ensures Value(Decimal(n)) == n
  {
    var s := Decimal(n);
    if n < 10 {
      assert s[..|s| - 1] == "";
    } else {
      DecimalValue(n / 10);
      assert s[..|s| - 1] == Decimal(n / 10);
    }
  }

  lemma {:induction false} LeadingZero(s: string)
    requires AllDigits(s)
    ensures Value("0" + s) == Value(s)
  {
    if s == "" {
      assert Value("0") == 10 * Value("0"[..0]);
    } else {
      var n := |s| - 1;
      LeadingZero(s[..n]);
      assert ("0" + s)[..n + 1] == "0" + s[..n];
    }
  }

  // One digit more is a place to the right; the last digit counts for itself.
  lemma {:induction false} Places(s: string, d: nat)
    requires AllDigits(s) && d < 10
    ensures AllDigits(s + ["0123456789"[d]]) && Value(s + ["0123456789"[d]]) == 10 * Value(s) + d
  {
    assert (s + ["0123456789"[d]])[..|s|] == s;
  }

  lemma ReadNumbers()
    ensures Value("10") == 10 && Value("007") == 7
  {
    Places("", 1);
    assert "10" == "1" + ["0123456789"[0]];
    Places("1", 0);
    LeadingZero("7");
    LeadingZero("07");
    Places("", 7);
  }

  // A printed range parses back to itself, cut off at the object's end.
  lemma PrintThenParse(offset: nat, length: nat, size: int64)
    requires 1 <= length && offset + length <= LIMIT && offset < size as int
    ensures ParseSingleRange(Header(FromTo(Decimal(offset), Decimal(offset + length - 1)), "", ""), size)
         == Serve(offset as int64, (if offset + length <= size as int then length else size as int - offset) as int64)
  {
    hide Decimal, ParseSingleRange, Value, AllDigits, Header;
    DecimalValue(offset);
    DecimalValue(offset + length - 1);
    var s := FromTo(Decimal(offset), Decimal(offset + length - 1));
    assert Header(s, "", "") + "" == Header(s, "", "");
    ParseSpec(s, "", "", "", size);
  }
}
