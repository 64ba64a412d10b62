/** Finding a JSON value inside a model's reply: a scanner that counts one kind of bracket
    and skips strings, against the grammar of RFC 8259. */
module JsonExtract {
  import opened Options

  // ---- The grammar ----

  /** One character of a string, as written (section 7). */
  datatype StringChar = Plain(c: char) | Escaped(c: char) | Unicode(h0: char, h1: char, h2: char, h3: char)

  /** A number, as written (section 6). */
  datatype Number = Number(minus: bool, whole: string, fraction: string, exponent: string)

  /** A value with the white space around its parts (sections 2 to 5). */
  datatype Json =
    | Literal(name: string)
    | Num(number: Number)
    | Str(chars: seq<StringChar>)
    | Arr(items: Items)
    | Obj(members: Members)

  /** The inside of an array: white space alone, or items between commas. */
  datatype Items = NoItems(space: string) | LastItem(item: Item) | MoreItems(item: Item, rest: Items)

  datatype Item = Item(before: string, value: Json, after: string)

  datatype Members = NoMembers(space: string) | LastMember(member: Member) | MoreMembers(member: Member, rest: Members)

  datatype Member = Member(before: string, key: seq<StringChar>, afterKey: string, item: Item)

  predicate IsBlank(s: string) {
    forall i :: 0 <= i < |s| ==> s[i] in {' ', '\t', '\n', '\r'}
  }

  predicate IsDigits(s: string) {
    forall i :: 0 <= i < |s| ==> '0' <= s[i] <= '9'
  }

  predicate IsHex(c: char) {
    '0' <= c <= '9' || 'a' <= c <= 'f' || 'A' <= c <= 'F'
  }

  predicate IsNumber(n: Number) {
    && n.whole != "" && IsDigits(n.whole) && (n.whole[0] == '0' ==> |n.whole| == 1)
    && (n.fraction != "" ==> |n.fraction| > 1 && n.fraction[0] == '.' && IsDigits(n.fraction[1..]))
    && (n.exponent != "" ==>
          && n.exponent[0] in {'e', 'E'} && |n.exponent| > 1
          && (IsDigits(n.exponent[1..]) || (n.exponent[1] in {'+', '-'} && |n.exponent| > 2 && IsDigits(n.exponent[2..]))))
  }

  predicate IsStringChar(c: StringChar) {
    match c
    case Plain(c) => c >= ' ' && c != '"' && c != '\\'
    case Escaped(c) => c in {'"', '\\', '/', 'b', 'f', 'n', 'r', 't'}
    case Unicode(a, b, c, d) => IsHex(a) && IsHex(b) && IsHex(c) && IsHex(d)
  }

  predicate IsString(s: seq<StringChar>) {
    forall i :: 0 <= i < |s| ==> IsStringChar(s[i])
  }

  predicate IsJson(v: Json) {
    match v
    case Literal(name) => name in {"null", "true", "false"}
    case Num(n) => IsNumber(n)
    case Str(chars) => IsString(chars)
    case Arr(items) => AreItems(items)
    case Obj(members) => AreMembers(members)
  }

  predicate AreItems(xs: Items) {
    match xs
    case NoItems(space) => IsBlank(space)
    case LastItem(item) => IsItem(item)
    case MoreItems(item, rest) => IsItem(item) && !rest.NoItems? && AreItems(rest)
  }

  predicate IsItem(x: Item) {
    IsBlank(x.before) && IsJson(x.value) && IsBlank(x.after)
  }

  predicate AreMembers(ms: Members) {
    match ms
    case NoMembers(space) => IsBlank(space)
    case LastMember(member) => IsMember(member)
    case MoreMembers(member, rest) => IsMember(member) && !rest.NoMembers? && AreMembers(rest)
  }

  predicate IsMember(m: Member) {
    IsBlank(m.before) && IsString(m.key) && IsBlank(m.afterKey) && IsItem(m.item)
  }

  // ---- Printing ----

  function PrintChar(c: StringChar): string {
    match c
    case Plain(c) => [c]
    case Escaped(c) => ['\\', c]
    case Unicode(a, b, c, d) => ['\\', 'u', a, b, c, d]
  }

  function PrintChars(s: seq<StringChar>): string {
    if s == [] then [] else PrintChar(s[0]) + PrintChars(s[1..])
  }

  function PrintString(s: seq<StringChar>): string {
    ['"'] + (PrintChars(s) + ['"'])
  }

  function PrintNumber(n: Number): string {
    (if n.minus then ['-'] else []) + n.whole + n.fraction + n.exponent
  }

  function Print(v: Json): string {
    match v
    case Literal(name) => name
    case Num(n) => PrintNumber(n)
    case Str(chars) => PrintString(chars)
    case Arr(items) => ['['] + (PrintItems(items) + [']'])
    case Obj(members) => ['{'] + (PrintMembers(members) + ['}'])
  }

  function PrintItems(xs: Items): string {
    match xs
    case NoItems(space) => space
    case LastItem(item) => PrintItem(item)
    case MoreItems(item, rest) => PrintItem(item) + ([','] + PrintItems(rest))
  }

  function PrintItem(x: Item): string {
    x.before + (Print(x.value) + x.after)
  }

  function PrintMembers(ms: Members): string {
    match ms
    case NoMembers(space) => space
    case LastMember(member) => PrintMember(member)
    case MoreMembers(member, rest) => PrintMember(member) + ([','] + PrintMembers(rest))
  }

  function PrintMember(m: Member): string {
    m.before + (PrintString(m.key) + (m.afterKey + ([':'] + PrintItem(m.item))))
  }

  // ---- The scanner ----

  predicate IsPair(open: char, close: char) {
    (open == '{' && close == '}') || (open == '[' && close == ']')
  }

  /** The scan of matchDelim from a position onwards. */
  function Scan(text: string, i: nat, depth: int, inStr: bool, open: char, close: char): (end: int)
    ensures end == -1 || i <= end < |text|
    ensures end >= 0 ==> text[end] == close
    decreases |text| - i
  {
    if i >= |text| then -1
    else
      var c := text[i];
      if inStr then
        if c == '\\' then Scan(text, i + 2, depth, true, open, close)
        else Scan(text, i + 1, depth, c != '"', open, close)
      else if c == '"' then Scan(text, i + 1, depth, true, open, close)
      else if c == open then Scan(text, i + 1, depth + 1, false, open, close)
      else if c == close then if depth == 1 then i else Scan(text, i + 1, depth - 1, false, open, close)
      else Scan(text, i + 1, depth, false, open, close)
  }

  method MatchDelim(text: string, start: nat, open: char, close: char) returns (end: int)
    requires IsPair(open, close)
    ensures end == Scan(text, start, 0, false, open, close)
  {
    var depth, inStr, i := 0, false, start;
    while i < |text|
      invariant i >= start
      invariant Scan(text, start, 0, false, open, close) == Scan(text, i, depth, inStr, open, close)
    {
      var c := text[i];
      if inStr {
        if c == '\\' {
          i := i + 1;
        } else if c == '"' {
          inStr := false;
        }
        i := i + 1;
        continue;
      }
      if c == '"' {
        inStr := true;
      } else if c == open {
        depth := depth + 1;
      } else if c == close {
        depth := depth - 1;
        if depth == 0 { return i; }
      }
      i := i + 1;
    }
    return -1;
  }

  predicate IsOpener(c: char) {
    c == '{' || c == '['
  }

  function Closer(open: char): char {
    if open == '{' then '}' else ']'
  }

  /** Where the bracket at a position is closed, or -1. */
  function MatchAt(text: string, i: nat): (end: int)
    requires i < |text| && IsOpener(text[i])
    ensures end == -1 || i <= end < |text|
  {
    Scan(text, i, 0, false, text[i], Closer(text[i]))
  }

  predicate Matched(text: string, i: nat) {
    i < |text| && IsOpener(text[i]) && MatchAt(text, i) >= 0
  }

  /** The span from the first opener that is closed, if there is one. */
  method ExtractJSON(text: string) returns (span: Option<(nat, nat)>)
    ensures span.Some? ==> var (start, end) := span.value;
                           Matched(text, start) && end == MatchAt(text, start) + 1
                           && forall j: nat :: j < start ==> !Matched(text, j)
    ensures span.None? ==> forall j: nat :: !Matched(text, j)
  {
    for i := 0 to |text|
      invariant forall j: nat :: j < i ==> !Matched(text, j)
    {
      var open, close := text[i], '}';
      if text[i] == '{' {
        close := '}';
      } else if text[i] == '[' {
        close := ']';
      } else {
        continue;
      }
      var end := MatchDelim(text, i, open, close);
      if end >= 0 { return Some((i, end + 1)); }
    }
    return None;
  }

  // ---- Pieces of text the scanner walks over ----

  predicate At(text: string, i: nat, piece: string) {
    i + |piece| <= |text| && text[i..i + |piece|] == piece
  }

  lemma AtSplits(text: string, i: nat, a: string, b: string)
    requires At(text, i, a + b)
    ensures At(text, i, a) && At(text, i + |a|, b)
  {
    var piece := text[i..i + |a + b|];
    assert piece[..|a|] == a && piece[|a|..] == b;
    assert text[i..i + |a|] == piece[..|a|];
    assert text[i + |a|..i + |a| + |b|] == piece[|a|..];
  }

  lemma AtChar(text: string, i: nat, c: char)
    requires At(text, i, [c])
    ensures i < |text| && text[i] == c
  {
    assert text[i..i + 1][0] == text[i];
  }

  /** The scanner leaves a piece as it entered it. */
  ghost predicate Passes(text: string, i: nat, n: nat, depth: int, open: char, close: char) {
    Scan(text, i, depth, false, open, close) == Scan(text, i + n, depth, false, open, close)
  }

  predicate Neutral(s: string) {
    forall i :: 0 <= i < |s| ==> s[i] !in {'"', '{', '}', '[', ']'}
  }

  lemma {:induction false} NeutralPasses(text: string, i: nat, piece: string, depth: int, open: char, close: char)
    requires At(text, i, piece) && Neutral(piece) && IsPair(open, close)
    ensures Passes(text, i, |piece|, depth, open, close)
    decreases |piece|
  {
    if piece != [] {
      assert piece == [piece[0]] + piece[1..];
      AtSplits(text, i, [piece[0]], piece[1..]);
      AtChar(text, i, piece[0]);
      NeutralPasses(text, i + 1, piece[1..], depth, open, close);
    }
  }

  /** Inside a string, one written character leads to the next. */
  lemma CharPasses(text: string, i: nat, c: StringChar, depth: int, open: char, close: char)
    requires At(text, i, PrintChar(c)) && IsStringChar(c)
    ensures Scan(text, i, depth, true, open, close) == Scan(text, i + |PrintChar(c)|, depth, true, open, close)
  {
    var p := PrintChar(c);
    assert text[i] == p[0];
    if c.Unicode? {
      assert text[i + 2] == p[2] && text[i + 3] == p[3] && text[i + 4] == p[4] && text[i + 5] == p[5];
      HexPasses(text, i + 2, depth, open, close);
      HexPasses(text, i + 3, depth, open, close);
      HexPasses(text, i + 4, depth, open, close);
      HexPasses(text, i + 5, depth, open, close);
    }
  }

  lemma HexPasses(text: string, i: nat, depth: int, open: char, close: char)
    requires i < |text| && IsHex(text[i])
    ensures Scan(text, i, depth, true, open, close) == Scan(text, i + 1, depth, true, open, close)
  {
  }

  lemma {:induction false} CharsPass(text: string, i: nat, s: seq<StringChar>, depth: int, open: char, close: char)
    requires At(text, i, PrintChars(s)) && IsString(s)
    ensures Scan(text, i, depth, true, open, close) == Scan(text, i + |PrintChars(s)|, depth, true, open, close)
    decreases |s|
  {
    hide Scan, PrintChar, IsStringChar, At;
    if s != [] {
      AtSplits(text, i, PrintChar(s[0]), PrintChars(s[1..]));
      CharPasses(text, i, s[0], depth, open, close);
      CharsPass(text, i + |PrintChar(s[0])|, s[1..], depth, open, close);
    }
  }

  lemma QuotePasses(text: string, i: nat, inStr: bool, depth: int, open: char, close: char)
    requires At(text, i, ['"']) && IsPair(open, close)
    ensures Scan(text, i, depth, inStr, open, close) == Scan(text, i + 1, depth, !inStr, open, close)
  {
    AtChar(text, i, '"');
  }

  lemma StringPasses(text: string, i: nat, s: seq<StringChar>, depth: int, open: char, close: char)
    requires At(text, i, PrintString(s)) && IsString(s) && IsPair(open, close)
    ensures Passes(text, i, |PrintString(s)|, depth, open, close)
  {
    hide Scan, PrintChars, At, IsString;
    AtSplits(text, i, ['"'], PrintChars(s) + ['"']);
    AtSplits(text, i + 1, PrintChars(s), ['"']);
    QuotePasses(text, i, false, depth, open, close);
    CharsPass(text, i + 1, s, depth, open, close);
    QuotePasses(text, i + 1 + |PrintChars(s)|, true, depth, open, close);
  }

  lemma BlankIsNeutral(s: string)
    requires IsBlank(s)
    ensures Neutral(s)
  {
  }

  lemma NumberIsNeutral(n: Number)
    requires IsNumber(n)
    ensures Neutral(PrintNumber(n))
  {
    DigitsAreNeutral(n.whole);
    if n.fraction != "" { NeutralTail(n.fraction, 1); }
    if n.exponent != "" {
      if IsDigits(n.exponent[1..]) { NeutralTail(n.exponent, 1); } else { NeutralTail(n.exponent, 2); }
    }
  }

  lemma DigitsAreNeutral(s: string)
    requires IsDigits(s)
    ensures Neutral(s)
  {
  }

  lemma NeutralTail(s: string, k: nat)
    requires k <= |s| && IsDigits(s[k..]) && Neutral(s[..k])
    ensures Neutral(s)
  {
    assert s == s[..k] + s[k..];
  }

  lemma LiteralIsNeutral(name: string)
    requires name in {"null", "true", "false"}
    ensures Neutral(name)
  {
  }

  lemma {:induction false} PassesJoin(text: string, i: nat, m: nat, n: nat, depth: int, open: char, close: char)
    requires Passes(text, i, m, depth, open, close) && Passes(text, i + m, n, depth, open, close)
    ensures Passes(text, i, m + n, depth, open, close)
  {
    assert i + m + n == i + (m + n);
  }

  /** A bracket before and its partner after: counted when it is the scanner's own kind,
      ignored otherwise. */
  lemma BracketsPass(text: string, i: nat, left: char, inside: string, right: char, depth: int, open: char, close: char)
    requires At(text, i, [left] + (inside + [right])) && IsPair(left, right) && IsPair(open, close) && depth >= 1
    requires Passes(text, i + 1, |inside|, if left == open then depth + 1 else depth, open, close)
    ensures Passes(text, i, |inside| + 2, depth, open, close)
  {
    hide At;
    AtSplits(text, i, [left], inside + [right]);
    AtSplits(text, i + 1, inside, [right]);
    AtChar(text, i, left);
    AtChar(text, i + 1 + |inside|, right);
  }

  /** The scanner walks over every value, whatever it nests, once it is inside a bracket. */
  lemma {:induction false} ValuePasses(text: string, i: nat, v: Json, depth: int, open: char, close: char)
    requires At(text, i, Print(v)) && IsJson(v) && IsPair(open, close) && depth >= 1
    ensures Passes(text, i, |Print(v)|, depth, open, close)
    decreases v, 1
  {
    hide Scan, At, Passes, PrintItems, PrintMembers, PrintNumber, PrintString;
    match v
    case Literal(name) =>
      LiteralIsNeutral(name);
      NeutralPasses(text, i, name, depth, open, close);
    case Num(n) =>
      NumberIsNeutral(n);
      NeutralPasses(text, i, PrintNumber(n), depth, open, close);
    case Str(chars) => StringPasses(text, i, chars, depth, open, close);
    case Arr(items) =>
      AtSplits(text, i, ['['], PrintItems(items) + [']']);
      AtSplits(text, i + 1, PrintItems(items), [']']);
      ItemsPass(text, i + 1, items, if '[' == open then depth + 1 else depth, open, close);
      BracketsPass(text, i, '[', PrintItems(items), ']', depth, open, close);
    case Obj(members) =>
      AtSplits(text, i, ['{'], PrintMembers(members) + ['}']);
      AtSplits(text, i + 1, PrintMembers(members), ['}']);
      MembersPass(text, i + 1, members, if '{' == open then depth + 1 else depth, open, close);
      BracketsPass(text, i, '{', PrintMembers(members), '}', depth, open, close);
  }

  lemma {:induction false} ItemPasses(text: string, i: nat, x: Item, depth: int, open: char, close: char)
    requires At(text, i, PrintItem(x)) && IsItem(x) && IsPair(open, close) && depth >= 1
    ensures Passes(text, i, |PrintItem(x)|, depth, open, close)
    decreases x, 1
  {
    hide Scan, At, Passes, Print, IsBlank, IsJson;
    AtSplits(text, i, x.before, Print(x.value) + x.after);
    AtSplits(text, i + |x.before|, Print(x.value), x.after);
    BlankIsNeutral(x.before);
    BlankIsNeutral(x.after);
    NeutralPasses(text, i, x.before, depth, open, close);
    ValuePasses(text, i + |x.before|, x.value, depth, open, close);
    NeutralPasses(text, i + |x.before| + |Print(x.value)|, x.after, depth, open, close);
    PassesJoin(text, i, |x.before|, |Print(x.value)|, depth, open, close);
    PassesJoin(text, i, |x.before| + |Print(x.value)|, |x.after|, depth, open, close);
  }

  lemma CommaIsNeutral(c: char)
    requires c in {',', ':'}
    ensures Neutral([c])
  {
  }

  lemma {:induction false} ItemsPass(text: string, i: nat, xs: Items, depth: int, open: char, close: char)
    requires At(text, i, PrintItems(xs)) && AreItems(xs) && IsPair(open, close) && depth >= 1
    ensures Passes(text, i, |PrintItems(xs)|, depth, open, close)
    decreases xs, 1
  {
    hide Scan, At, Passes, PrintItem, IsItem, IsBlank;
    match xs
    case NoItems(space) =>
      BlankIsNeutral(space);
      NeutralPasses(text, i, space, depth, open, close);
    case LastItem(item) => ItemPasses(text, i, item, depth, open, close);
    case MoreItems(item, rest) =>
      var n := |PrintItem(item)|;
      AtSplits(text, i, PrintItem(item), [','] + PrintItems(rest));
      AtSplits(text, i + n, [','], PrintItems(rest));
      CommaIsNeutral(',');
      ItemPasses(text, i, item, depth, open, close);
      NeutralPasses(text, i + n, [','], depth, open, close);
      ItemsPass(text, i + n + 1, rest, depth, open, close);
      PassesJoin(text, i, n, 1, depth, open, close);
      PassesJoin(text, i, n + 1, |PrintItems(rest)|, depth, open, close);
  }

  lemma {:induction false} MemberPasses(text: string, i: nat, m: Member, depth: int, open: char, close: char)
    requires At(text, i, PrintMember(m)) && IsMember(m) && IsPair(open, close) && depth >= 1
    ensures Passes(text, i, |PrintMember(m)|, depth, open, close)
    decreases m, 1
  {
    hide Scan, At, Passes, PrintItem, IsItem, IsBlank, PrintString, IsString;
    var k, x := PrintString(m.key), PrintItem(m.item);
    var i1 := i + |m.before|;
    var i2 := i1 + |k|;
    var i3 := i2 + |m.afterKey|;
    AtSplits(text, i, m.before, k + (m.afterKey + ([':'] + x)));
    AtSplits(text, i1, k, m.afterKey + ([':'] + x));
    AtSplits(text, i2, m.afterKey, [':'] + x);
    AtSplits(text, i3, [':'], x);
    BlankIsNeutral(m.before);
    BlankIsNeutral(m.afterKey);
    CommaIsNeutral(':');
    NeutralPasses(text, i, m.before, depth, open, close);
    StringPasses(text, i1, m.key, depth, open, close);
    NeutralPasses(text, i2, m.afterKey, depth, open, close);
    NeutralPasses(text, i3, [':'], depth, open, close);
    ItemPasses(text, i3 + 1, m.item, depth, open, close);
    PassesJoin(text, i, |m.before|, |k|, depth, open, close);
    PassesJoin(text, i, |m.before| + |k|, |m.afterKey|, depth, open, close);
    PassesJoin(text, i, |m.before| + |k| + |m.afterKey|, 1, depth, open, close);
    PassesJoin(text, i, |m.before| + |k| + |m.afterKey| + 1, |x|, depth, open, close);
  }

  lemma {:induction false} MembersPass(text: string, i: nat, ms: Members, depth: int, open: char, close: char)
    requires At(text, i, PrintMembers(ms)) && AreMembers(ms) && IsPair(open, close) && depth >= 1
    ensures Passes(text, i, |PrintMembers(ms)|, depth, open, close)
    decreases ms, 1
  {
    hide Scan, At, Passes, PrintMember, IsMember, IsBlank;
    match ms
    case NoMembers(space) =>
      BlankIsNeutral(space);
      NeutralPasses(text, i, space, depth, open, close);
    case LastMember(member) => MemberPasses(text, i, member, depth, open, close);
    case MoreMembers(member, rest) =>
      var n := |PrintMember(member)|;
      AtSplits(text, i, PrintMember(member), [','] + PrintMembers(rest));
      AtSplits(text, i + n, [','], PrintMembers(rest));
      CommaIsNeutral(',');
      MemberPasses(text, i, member, depth, open, close);
      NeutralPasses(text, i + n, [','], depth, open, close);
      MembersPass(text, i + n + 1, rest, depth, open, close);
      PassesJoin(text, i, n, 1, depth, open, close);
      PassesJoin(text, i, n + 1, |PrintMembers(rest)|, depth, open, close);
  }

  // ---- Extraction ----

  /** From its first bracket the scanner stops at a value's last. */
  lemma ContainerMatches(text: string, i: nat, v: Json)
    requires At(text, i, Print(v)) && IsJson(v) && (v.Arr? || v.Obj?)
    ensures Matched(text, i) && MatchAt(text, i) + 1 == i + |Print(v)|
  {
    hide At, PrintItems, PrintMembers, Passes, AreItems, AreMembers;
    var left, inside, right := if v.Arr? then '[' else '{', if v.Arr? then PrintItems(v.items) else PrintMembers(v.members),
                               if v.Arr? then ']' else '}';
    AtSplits(text, i, [left], inside + [right]);
    AtSplits(text, i + 1, inside, [right]);
    AtChar(text, i, left);
    AtChar(text, i + 1 + |inside|, right);
    if v.Arr? {
      ItemsPass(text, i + 1, v.items, 1, left, right);
    } else {
      MembersPass(text, i + 1, v.members, 1, left, right);
    }
    UsePasses(text, i + 1, |inside|, 1, left, right);
  }

  lemma UsePasses(text: string, i: nat, n: nat, depth: int, open: char, close: char)
    requires Passes(text, i, n, depth, open, close)
    ensures Scan(text, i, depth, false, open, close) == Scan(text, i + n, depth, false, open, close)
  {
  }

  /** What ExtractJSON returns. */
  ghost predicate Extracts(text: string, start: nat, end: nat) {
    Matched(text, start) && end == MatchAt(text, start) + 1 && forall j: nat :: j < start ==> !Matched(text, j)
  }

  // ---- What stands before the value ----

  /** What the scanner does at one character. */
  datatype Move = Stop | Go(width: nat, depth: int, inStr: bool)

  function MoveOn(c: char, depth: int, inStr: bool, open: char, close: char): Move {
    if inStr then if c == '\\' then Go(2, depth, true) else Go(1, depth, c != '"')
    else if c == '"' then Go(1, depth, true)
    else if c == open then Go(1, depth + 1, false)
    else if c == close then if depth == 1 then Stop else Go(1, depth - 1, false)
    else Go(1, depth, false)
  }

  lemma ScanMoves(text: string, i: nat, depth: int, inStr: bool, open: char, close: char)
    requires i < |text|
    ensures Scan(text, i, depth, inStr, open, close) ==
              match MoveOn(text[i], depth, inStr, open, close)
              case Stop => i
              case Go(n, d, q) => Scan(text, i + n, d, q, open, close)
  {
  }

  /** Whether the scan comes to an end does not depend on what stands before its start. */
  lemma {:induction false} ScanForgets(x: string, y: string, s: string, k: nat, depth: int, inStr: bool, open: char, close: char)
    ensures Scan(x + s, |x| + k, depth, inStr, open, close) >= 0 <==> Scan(y + s, |y| + k, depth, inStr, open, close) >= 0
    decreases |s| - k
  {
    if k < |s| {
      assert (x + s)[|x| + k] == s[k] && (y + s)[|y| + k] == s[k];
      ScanMoves(x + s, |x| + k, depth, inStr, open, close);
      ScanMoves(y + s, |y| + k, depth, inStr, open, close);
      MovesForward(s[k], depth, inStr, open, close);
      hide Scan, MoveOn;
      var move := MoveOn(s[k], depth, inStr, open, close);
      if move.Go? { ScanForgets(x, y, s, k + move.width, move.depth, move.inStr, open, close); }
    }
  }

  lemma MovesForward(c: char, depth: int, inStr: bool, open: char, close: char)
    ensures var move := MoveOn(c, depth, inStr, open, close); move.Go? ==> move.width > 0
  {
  }

  /** Where a scan stands that has run off the end of a text: how deep, whether in a string,
      and how many characters of what follows an escape takes along. */
  datatype Carried = Carried(depth: int, inStr: bool, skip: nat)

  /** What a scan carries past the end of a text, unless it comes to an end within. */
  function Carry(s: string, i: nat, depth: int, inStr: bool, open: char, close: char): (c: Option<Carried>)
    requires i > |s| ==> inStr
    ensures c.Some? && !c.value.inStr ==> c.value.skip == 0
    ensures c.Some? && depth >= 1 && open != close ==> c.value.depth >= 1
    decreases |s| - i
  {
    if i >= |s| then Some(Carried(depth, inStr, i - |s|))
    else
      match MoveOn(s[i], depth, inStr, open, close)
      case Stop => None
      case Go(n, d, q) => Carry(s, i + n, d, q, open, close)
  }

  /** A scan of two texts is a scan of the first, and of the second from there. */
  lemma {:induction false} ScanCarries(s: string, rest: string, i: nat, depth: int, inStr: bool, open: char, close: char)
    requires i > |s| ==> inStr
    ensures var c := Carry(s, i, depth, inStr, open, close);
            Scan(s + rest, i, depth, inStr, open, close) >= 0 <==>
              c.None? || Scan(rest, c.value.skip, c.value.depth, c.value.inStr, open, close) >= 0
    decreases |s| - i
  {
    if i >= |s| {
      assert "" + rest == rest;
      ScanForgets(s, "", rest, i - |s|, depth, inStr, open, close);
    } else {
      assert (s + rest)[i] == s[i];
      ScanMoves(s + rest, i, depth, inStr, open, close);
      MovesForward(s[i], depth, inStr, open, close);
      hide Scan;
      var move := MoveOn(s[i], depth, inStr, open, close);
      if move.Go? { ScanCarries(s, rest, i + move.width, move.depth, move.inStr, open, close); }
    }
  }

  /** Within a bracket that is open a value in front changes nothing. */
  lemma ValueDoesNotMatter(v: Json, suffix: string, depth: int, open: char, close: char)
    requires IsJson(v) && IsPair(open, close) && depth >= 1
    ensures Scan(Print(v) + suffix, 0, depth, false, open, close) >= 0 <==> Scan(suffix, 0, depth, false, open, close) >= 0
  {
    hide Print, IsJson, Scan;
    var text := Print(v) + suffix;
    assert At(text, 0, Print(v)) && "" + suffix == suffix;
    ValuePasses(text, 0, v, depth, open, close);
    UsePasses(text, 0, |Print(v)|, depth, open, close);
    ScanForgets(Print(v), "", suffix, 0, depth, false, open, close);
  }

  /** What a scan from an opener of the prefix carries past it. */
  function CarryFrom(prefix: string, j: nat): Option<Carried>
    requires j < |prefix| && IsOpener(prefix[j])
  {
    Carry(prefix, j + 1, 1, false, prefix[j], Closer(prefix[j]))
  }

  lemma MatchedCarries(prefix: string, rest: string, j: nat)
    requires j < |prefix| && IsOpener(prefix[j])
    ensures var c := CarryFrom(prefix, j);
            Matched(prefix + rest, j) <==>
              c.None? || Scan(rest, c.value.skip, c.value.depth, c.value.inStr, prefix[j], Closer(prefix[j])) >= 0
  {
    var text := prefix + rest;
    assert text[j] == prefix[j];
    MatchFromNext(text, j);
    hide Scan, Matched;
    ScanCarries(prefix, rest, j + 1, 1, false, prefix[j], Closer(prefix[j]));
  }

  lemma MatchFromNext(text: string, j: nat)
    requires j < |text| && IsOpener(text[j])
    ensures Matched(text, j) <==> Scan(text, j + 1, 1, false, text[j], Closer(text[j])) >= 0
  {
  }

  /** An opener of the prefix that is still open has left a string open. */
  predicate InString(prefix: string, j: nat)
    requires j < |prefix|
  {
    IsOpener(prefix[j]) && CarryFrom(prefix, j).Some? && CarryFrom(prefix, j).value.inStr
  }

  /** An opener of the prefix is closed behind it: by the text around the value or, where a
      string is open, by whatever the value's own quotes let through. */
  ghost predicate ClosedAround(prefix: string, v: Json, suffix: string, j: nat)
    requires j < |prefix|
  {
    if InString(prefix, j) then
      var c := CarryFrom(prefix, j).value;
      Scan(Print(v) + suffix, c.skip, c.depth, true, prefix[j], Closer(prefix[j])) >= 0
    else Matched(prefix + suffix, j)
  }

  /** So an opener before the value that leaves no string open is closed in the whole text if
      and only if it is closed in the text without the value. */
  lemma OpenerIsClosedIff(prefix: string, v: Json, suffix: string, j: nat)
    requires IsJson(v) && j < |prefix|
    ensures Matched(prefix + Print(v) + suffix, j) <==> ClosedAround(prefix, v, suffix, j)
  {
    hide Print, IsJson, Scan, Carry;
    var rest := Print(v) + suffix;
    assert prefix + Print(v) + suffix == prefix + rest;
    assert (prefix + rest)[j] == prefix[j] && (prefix + suffix)[j] == prefix[j];
    if IsOpener(prefix[j]) {
      MatchedCarries(prefix, rest, j);
      MatchedCarries(prefix, suffix, j);
      hide Matched;
      var c := CarryFrom(prefix, j);
      if c.Some? && !c.value.inStr { ValueDoesNotMatter(v, suffix, c.value.depth, prefix[j], Closer(prefix[j])); }
    }
  }

  /** Whatever stands around a JSON object or array: the extracted span is exactly the value if
      and only if no opener before it is closed around it. Where no opener leaves a string
      open, the value itself has no part in that. */
  lemma ExtractsValueIff(prefix: string, v: Json, suffix: string)
    requires IsJson(v) && (v.Arr? || v.Obj?)
    ensures Extracts(prefix + Print(v) + suffix, |prefix|, |prefix| + |Print(v)|) <==>
              forall j: nat :: j < |prefix| ==> !ClosedAround(prefix, v, suffix, j)
    ensures (forall j: nat :: j < |prefix| ==> !InString(prefix, j)) ==>
              (Extracts(prefix + Print(v) + suffix, |prefix|, |prefix| + |Print(v)|) <==>
               forall j: nat :: j < |prefix| ==> !Matched(prefix + suffix, j))
  {
    hide Scan, IsJson, Print, MatchAt, Matched, InString, CarryFrom;
    var text := prefix + Print(v) + suffix;
    assert At(text, |prefix|, Print(v));
    ContainerMatches(text, |prefix|, v);
    forall j: nat | j < |prefix| ensures Matched(text, j) <==> ClosedAround(prefix, v, suffix, j) {
      OpenerIsClosedIff(prefix, v, suffix, j);
    }
    if forall j: nat :: j < |prefix| ==> !InString(prefix, j) {
      forall j: nat | j < |prefix| ensures ClosedAround(prefix, v, suffix, j) <==> Matched(prefix + suffix, j) {
        assert !InString(prefix, j);
      }
    }
  }

  lemma {:induction false} NoQuotesNoString(s: string, i: nat, depth: int, open: char, close: char)
    requires '"' !in s && i <= |s|
    ensures var c := Carry(s, i, depth, false, open, close); c.Some? ==> !c.value.inStr
    decreases |s| - i
  {
    if i < |s| {
      assert s[i] in s;
      var move := MoveOn(s[i], depth, false, open, close);
      if move.Go? { NoQuotesNoString(s, i + 1, move.depth, open, close); }
    }
  }

  /** So it is after any prefix without quotes. */
  lemma ExtractsAfterUnquotedPrefixIff(prefix: string, v: Json, suffix: string)
    requires IsJson(v) && (v.Arr? || v.Obj?) && '"' !in prefix
    ensures Extracts(prefix + Print(v) + suffix, |prefix|, |prefix| + |Print(v)|) <==>
              forall j: nat :: j < |prefix| ==> !Matched(prefix + suffix, j)
  {
    forall j: nat | j < |prefix| ensures !InString(prefix, j) {
      hide Carry;
      if IsOpener(prefix[j]) { NoQuotesNoString(prefix, j + 1, 1, prefix[j], Closer(prefix[j])); }
    }
    hide *;
    ExtractsValueIff(prefix, v, suffix);
  }

  /** Where an opener leaves a string open the text around the value does not settle it:
      between the same prefix and suffix one array is extracted and another is not. */
  lemma OpenQuoteLetsValueDecide()
    ensures exists v, w :: IsJson(v) && v.Arr? && IsJson(w) && w.Arr?
                           && Extracts("[\"" + Print(v), 2, 2 + |Print(v)|)
                           && Extracts("[\"" + Print(w), 0, 5)
  {
    var v := Arr(NoItems(""));
    var w := Arr(LastItem(Item("", Str([Plain(']')]), "")));
    OneBracket();
    assert IsJson(v) && IsJson(w);
    OpenQuoteScans(Print(v), Print(w));
  }

  lemma OneBracket()
    ensures Print(Arr(NoItems(""))) == "[]"
    ensures Print(Arr(LastItem(Item("", Str([Plain(']')]), "")))) == "[\"]\"]"
  {
    var chars := [Plain(']')];
    assert chars[1..] == [];
    assert PrintChars(chars) == "]";
  }

  lemma OpenQuoteScans(v: string, w: string)
    requires v == "[]" && w == "[\"]\"]"
    ensures Extracts("[\"" + v, 2, 4) && Extracts("[\"" + w, 0, 5)
  {
    var a, b := "[\"" + v, "[\"" + w;
    assert a == "[\"[]" && b == "[\"[\"]\"]";
    assert Scan(a, 3, 1, false, '[', ']') == 3;
    assert Scan(a, 4, 1, true, '[', ']') < 0;
    assert Scan(a, 3, 1, true, '[', ']') < 0;
    assert Scan(a, 2, 1, true, '[', ']') < 0;
    assert Scan(a, 1, 1, false, '[', ']') < 0;
    assert Scan(b, 4, 1, false, '[', ']') == 4;
    assert Scan(b, 3, 1, true, '[', ']') == 4;
    assert Scan(b, 2, 1, true, '[', ']') == 4;
    assert Scan(b, 1, 1, false, '[', ']') == 4;
  }

  /** In particular after a prefix without openers: exactly the value is extracted, for any
      nesting, any escapes and any suffix. */
  lemma ExtractsAfterPlainPrefix(prefix: string, v: Json, suffix: string, start: nat, end: nat)
    requires IsJson(v) && (v.Arr? || v.Obj?) && '{' !in prefix && '[' !in prefix
    ensures var text := prefix + Print(v) + suffix;
            Extracts(text, start, end) <==> start == |prefix| && end == |prefix| + |Print(v)|
    ensures (prefix + Print(v) + suffix)[|prefix|..|prefix| + |Print(v)|] == Print(v)
  {
    hide Scan, IsJson, Print, MatchAt;
    var text := prefix + Print(v) + suffix;
    ExtractsValueIff(prefix, v, suffix);
    forall j: nat | j < |prefix| ensures !Matched(prefix + suffix, j) && !Matched(text, j) {
      assert text[j] == prefix[j] && (prefix + suffix)[j] == prefix[j];
    }
    assert Matched(text, |prefix|);
  }

  /** Before a value, a prefix with a closed bracket of its own hides it. */
  lemma ClosedPrefixHidesValue(v: Json, suffix: string)
    requires IsJson(v) && (v.Arr? || v.Obj?)
    ensures Extracts("[1] " + Print(v) + suffix, 0, 3)
  {
    hide Print;
    var text := "[1] " + Print(v) + suffix;
    assert text[0] == '[' && text[1] == '1' && text[2] == ']';
    assert Scan(text, 2, 1, false, '[', ']') == 2;
    assert Scan(text, 1, 1, false, '[', ']') == 2;
  }
}
