/** The string operations of the Go standard library that the repository relies on,
    over sequences of characters. */
module GoStrings {

  /** unicode.IsSpace. */
  predicate IsSpace(c: char) {
    c in {'\t', '\n', '\U{0b}', '\U{0c}', '\r', ' ', '\U{85}', '\U{a0}', '\U{1680}',
          '\U{2028}', '\U{2029}', '\U{202f}', '\U{205f}', '\U{3000}'}
    || '\U{2000}' <= c <= '\U{200a}'
  }

  /** No white space at either end. */
  predicate Trimmed(s: string) {
    s != [] ==> !IsSpace(s[0]) && !IsSpace(s[|s| - 1])
  }

  predicate AllSpace(s: string) {
    forall i :: 0 <= i < |s| ==> IsSpace(s[i])
  }

  /** strings.TrimSpace. */
  function TrimSpace(s: string): (t: string)
    ensures Trimmed(t)
    ensures Trimmed(s) ==> t == s
    ensures |t| <= |s|
  {
    if s == [] then []
    else if IsSpace(s[0]) then TrimSpace(s[1..])
    else if IsSpace(s[|s| - 1]) then TrimSpace(s[..|s| - 1])
    else s
  }

  /** Trimming cuts white space off both ends and nothing else. */
  lemma {:induction false} TrimSpaceIsMiddle(s: string) returns (front: string, back: string)
    ensures s == front + TrimSpace(s) + back && AllSpace(front) && AllSpace(back)
  {
    hide IsSpace, Trimmed, AllSpace;
    NoSpace();
    front, back := [], [];
    if s != [] && IsSpace(s[0]) {
      front, back := TrimSpaceIsMiddle(s[1..]);
      Rebracket([s[0]], s[1..], front, TrimSpace(s[1..]), back);
      SpaceJoins([s[0]], front);
      front := [s[0]] + front;
    } else if s != [] && IsSpace(s[|s| - 1]) {
      front, back := TrimSpaceIsMiddle(s[..|s| - 1]);
      Rebracket(front, TrimSpace(s[..|s| - 1]), [], back, [s[|s| - 1]]);
      assert s == s[..|s| - 1] + [s[|s| - 1]];
      SpaceJoins(back, [s[|s| - 1]]);
      back := back + [s[|s| - 1]];
    }
  }

  lemma NoSpace()
    ensures AllSpace([])
  {
  }

  lemma SpaceJoins(a: string, b: string)
    requires (|a| == 1 && IsSpace(a[0])) || AllSpace(a)
    requires (|b| == 1 && IsSpace(b[0])) || AllSpace(b)
    ensures AllSpace(a + b)
  {
  }

  lemma Rebracket(a: string, rest: string, b: string, c: string, d: string)
    ensures rest == b + c + d ==> a + rest == (a + b) + c + d
    ensures a + rest + (c + d) == (a + rest + c) + d
  {
  }

  lemma {:induction false} TrimPaddingRight(s: string, pad: string)
    requires Trimmed(s) && AllSpace(pad)
    ensures TrimSpace(s + pad) == s
  {
    if pad == [] {
      assert s + pad == s;
    } else if s == [] {
      assert (s + pad)[1..] == pad[1..];
      assert (s + pad)[0] == pad[0];
      assert s + pad[1..] == pad[1..];
      TrimPaddingRight(s, pad[1..]);
    } else {
      var t := s + pad;
      assert t[|t| - 1] == pad[|pad| - 1];
      assert t[..|t| - 1] == s + pad[..|pad| - 1];
      TrimPaddingRight(s, pad[..|pad| - 1]);
    }
  }

  /** White space put around a trimmed text is what trimming takes off. */
  lemma {:induction false} TrimPadded(left: string, s: string, right: string)
    requires AllSpace(left) && Trimmed(s) && AllSpace(right)
    ensures TrimSpace(left + s + right) == s
  {
    if left == [] {
      assert left + s + right == s + right;
      TrimPaddingRight(s, right);
    } else {
      var t := left + s + right;
      assert t[0] == left[0] && t[1..] == left[1..] + s + right;
      TrimPadded(left[1..], s, right);
    }
  }

  /** So white space around a text makes no difference to what is trimmed. */
  lemma TrimIgnoresPadding(left: string, s: string, right: string)
    requires AllSpace(left) && AllSpace(right)
    ensures TrimSpace(left + s + right) == TrimSpace(s)
  {
    var front, back := TrimSpaceIsMiddle(s);
    SpaceJoins(left, front);
    SpaceJoins(back, right);
    hide AllSpace, TrimSpace;
    assert left + (front + TrimSpace(s) + back) + right == (left + front) + TrimSpace(s) + (back + right);
    TrimPadded(left + front, TrimSpace(s), back + right);
  }

  predicate HasPrefix(s: string, prefix: string) {
    |prefix| <= |s| && s[..|prefix|] == prefix
  }

  /** strings.Contains. */
  predicate Contains(s: string, sub: string) {
    exists i :: 0 <= i <= |s| && HasPrefix(s[i..], sub)
  }

  lemma ContainsIff(s: string, sub: string)
    ensures Contains(s, sub) <==> exists front, back :: s == front + sub + back
  {
    if i :| 0 <= i <= |s| && HasPrefix(s[i..], sub) {
      assert s == s[..i] + sub + s[i + |sub|..];
    }
    if front, back :| s == front + sub + back {
      assert s[|front|..] == sub + back;
      assert HasPrefix(s[|front|..], sub);
    }
  }

  /** strings.Index: the first position of a text, or -1. */
  function Index(s: string, sub: string): (i: int)
    ensures -1 <= i <= |s|
    ensures i >= 0 ==> HasPrefix(s[i..], sub)
    ensures forall j :: 0 <= j <= |s| && (i < 0 || j < i) ==> !HasPrefix(s[j..], sub)
  {
    if HasPrefix(s, sub) then assert s[0..] == s; 0
    else if s == [] then -1
    else
      var i := Index(s[1..], sub);
      assert forall j :: 1 <= j <= |s| ==> s[j..] == s[1..][j - 1..];
      assert s[0..] == s;
      if i < 0 then -1 else i + 1
  }

  /** strings.LastIndex: the last position of a text, or -1. */
  function LastIndex(s: string, sub: string): (i: int)
    ensures -1 <= i <= |s|
    ensures i >= 0 ==> HasPrefix(s[i..], sub)
    ensures forall j :: i < j <= |s| ==> !HasPrefix(s[j..], sub)
  {
    if s == [] then if sub == [] then 0 else -1
    else
      var i := LastIndex(s[1..], sub);
      assert forall j :: 1 <= j <= |s| ==> s[j..] == s[1..][j - 1..];
      assert s[0..] == s;
      if i >= 0 then i + 1 else if HasPrefix(s, sub) then 0 else -1
  }

  /** strings.Trim with a one-character cutset. */
  function TrimChar(s: string, c: char): string {
    if s == [] then []
    else if s[0] == c then TrimChar(s[1..], c)
    else if s[|s| - 1] == c then TrimChar(s[..|s| - 1], c)
    else s
  }

  predicate NoSpaces(s: string) {
    forall i :: 0 <= i < |s| ==> !IsSpace(s[i])
  }

  /** The position of the first white space, or the length. */
  function WordEnd(s: string): (n: nat)
    ensures n <= |s| && NoSpaces(s[..n]) && (n < |s| ==> IsSpace(s[n]))
  {
    if s == [] || IsSpace(s[0]) then 0 else 1 + WordEnd(s[1..])
  }

  /** strings.Fields. */
  function Fields(s: string): seq<string> {
    if s == [] then []
    else if IsSpace(s[0]) then Fields(s[1..])
    else [s[..WordEnd(s)]] + Fields(s[WordEnd(s)..])
  }

  /** A word followed by the end or by white space is the first field. */
  lemma {:induction false} FirstField(word: string, rest: string)
    requires word != [] && NoSpaces(word) && (rest == [] || IsSpace(rest[0]))
    ensures Fields(word + rest) == [word] + Fields(rest)
  {
    WordEnds(word, rest);
    var s := word + rest;
    assert s[0] == word[0] && s[..|word|] == word && s[|word|..] == rest;
  }

  lemma {:induction false} WordEnds(word: string, rest: string)
    requires NoSpaces(word) && (rest == [] || IsSpace(rest[0]))
    ensures WordEnd(word + rest) == |word|
  {
    if word == [] {
      assert word + rest == rest;
    } else {
      assert (word + rest)[1..] == word[1..] + rest;
      WordEnds(word[1..], rest);
    }
  }

  lemma PrefixStarts(s: string, prefix: string)
    requires prefix != ""
    ensures HasPrefix(s, prefix) ==> s != "" && s[0] == prefix[0]
  {
    if HasPrefix(s, prefix) { assert s[..|prefix|][0] == s[0]; }
  }

  lemma PairAt(s: string, i: nat, a: char, b: char)
    requires i <= |s|
    ensures HasPrefix(s[i..], [a, b]) <==> i + 1 < |s| && s[i] == a && s[i + 1] == b
  {
    if i + 1 < |s| { assert s[i..][..2] == [s[i], s[i + 1]]; }
  }

  lemma PrefixOfSlice(s: string, n: nat, i: nat, sub: string)
    requires i <= n <= |s|
    ensures HasPrefix(s[..n][i..], sub) ==> HasPrefix(s[i..], sub)
  {
    if |sub| <= n - i { assert s[..n][i..][..|sub|] == s[i..][..|sub|]; }
  }

  // ---- Lower case ----

  ghost predicate IsCaseMap(lower: char -> char) {
    forall c :: lower(lower(c)) == lower(c) && (IsSpace(lower(c)) <==> IsSpace(c))
  }

  function LowerAscii(c: char): char {
    if 'A' <= c <= 'Z' then c - 'A' + 'a' else c
  }

  /** unicode.ToLower, of which only this matters: it is idempotent and neither makes nor
      removes white space. */
  type CaseMap = f: char -> char | IsCaseMap(f) witness LowerAscii

  /** strings.ToLower. */
  function ToLower(lower: CaseMap, s: string): string {
    seq(|s|, i requires 0 <= i < |s| => lower(s[i]))
  }

  function Normalize(lower: CaseMap, s: string): string {
    ToLower(lower, TrimSpace(s))
  }

  lemma NormalizeIsIdempotent(lower: CaseMap, s: string)
    ensures Normalize(lower, Normalize(lower, s)) == Normalize(lower, s)
    ensures Trimmed(Normalize(lower, s))
  {
    hide IsSpace, TrimSpace;
    var t := TrimSpace(s);
    assert |t| > 0 ==> !IsSpace(lower(t[0])) && !IsSpace(lower(t[|t| - 1]));
    assert Trimmed(ToLower(lower, t));
  }

  /** Normalising ignores case and the white space around a text. */
  lemma NormalizeIgnoresSpelling(lower: CaseMap, left: string, s: string, right: string)
    requires AllSpace(left) && AllSpace(right)
    ensures Normalize(lower, left + ToLower(lower, s) + right) == Normalize(lower, s)
  {
    hide IsSpace, TrimSpace, AllSpace;
    TrimIgnoresPadding(left, ToLower(lower, s), right);
    TrimAndLower(lower, s);
    var t := TrimSpace(s);
    forall i | 0 <= i < |t| ensures lower(lower(t[i])) == lower(t[i]) {}
    assert ToLower(lower, ToLower(lower, t)) == ToLower(lower, t);
  }

  lemma {:induction false} TrimAndLower(lower: CaseMap, s: string)
    ensures TrimSpace(ToLower(lower, s)) == ToLower(lower, TrimSpace(s))
  {
    hide IsSpace;
    if s != [] {
      var t, n := ToLower(lower, s), |s| - 1;
      assert IsSpace(lower(s[0])) <==> IsSpace(s[0]);
      assert IsSpace(lower(s[n])) <==> IsSpace(s[n]);
      assert t[1..] == ToLower(lower, s[1..]) && t[..n] == ToLower(lower, s[..n]);
      if IsSpace(s[0]) {
        TrimAndLower(lower, s[1..]);
      } else if IsSpace(s[n]) {
        TrimAndLower(lower, s[..n]);
      }
    }
  }

  // ---- Splitting at one character ----

  /** strings.Split with a one-character separator. */
  function Split(s: string, sep: char): (parts: seq<string>)
    ensures |parts| > 0
  {
    if s == [] then [[]]
    else
      var rest := Split(s[1..], sep);
      if s[0] == sep then [[]] + rest else [[s[0]] + rest[0]] + rest[1..]
  }

  /** strings.Join with a one-character separator. */
  function Join(parts: seq<string>, sep: char): string
    requires |parts| > 0
  {
    if |parts| == 1 then parts[0] else parts[0] + [sep] + Join(parts[1..], sep)
  }

  lemma {:induction false} SplitPiece(s: string, sep: char)
    requires sep !in s
    ensures Split(s, sep) == [s]
  {
    if s != [] {
      SplitPiece(s[1..], sep);
      assert [s[0]] + s[1..] == s;
    }
  }

  lemma {:induction false} SplitAtSeparator(s: string, sep: char, rest: string)
    requires sep !in s
    ensures Split(s + [sep] + rest, sep) == [s] + Split(rest, sep)
  {
    var t := s + [sep] + rest;
    if s == [] {
      assert t[1..] == rest;
    } else {
      assert t[1..] == s[1..] + [sep] + rest;
      assert [s[0]] + s[1..] == s;
      SplitAtSeparator(s[1..], sep, rest);
    }
  }

  /** Splitting a joined list gives the list back when no piece holds the separator. */
  lemma {:induction false} SplitJoin(parts: seq<string>, sep: char)
    requires |parts| > 0
    requires forall i :: 0 <= i < |parts| ==> sep !in parts[i]
    ensures Split(Join(parts, sep), sep) == parts
  {
    if |parts| == 1 {
      SplitPiece(parts[0], sep);
    } else {
      SplitAtSeparator(parts[0], sep, Join(parts[1..], sep));
      SplitJoin(parts[1..], sep);
    }
  }

  lemma {:induction false} SplitPiecesAreClean(s: string, sep: char)
    ensures forall i :: 0 <= i < |Split(s, sep)| ==> sep !in Split(s, sep)[i]
    ensures Join(Split(s, sep), sep) == s
  {
    if s != [] {
      var rest := Split(s[1..], sep);
      SplitPiecesAreClean(s[1..], sep);
      if s[0] != sep {
        JoinPrepends(s[0], rest, sep);
      }
    }
  }

  lemma JoinPrepends(c: char, parts: seq<string>, sep: char)
    requires |parts| > 0
    ensures Join([[c] + parts[0]] + parts[1..], sep) == [c] + Join(parts, sep)
  {
    var longer := [[c] + parts[0]] + parts[1..];
    assert longer[1..] == parts[1..];
  }

  /** Between two separators, or a separator and an end, without a separator inside. */
  predicate IsStretch(s: string, sep: char, i: nat, j: nat) {
    && i <= j <= |s| && (forall k :: i <= k < j ==> s[k] != sep)
    && (i == 0 || s[i - 1] == sep) && (j == |s| || s[j] == sep)
  }

  /** Every piece of a split text is a stretch of it. */
  lemma {:induction false} PieceIsStretch(s: string, sep: char, k: nat) returns (i: nat, j: nat)
    requires k < |Split(s, sep)|
    ensures IsStretch(s, sep, i, j) && s[i..j] == Split(s, sep)[k] && (i == 0 <==> k == 0)
  {
    if s == [] || (s[0] == sep && k == 0) {
      i, j := 0, 0;
    } else {
      i, j := PieceIsStretch(s[1..], sep, if s[0] == sep then k - 1 else k);
      TailSlice(s, i, j);
      i, j := if k == 0 then 0 else i + 1, j + 1;
    }
  }

  lemma TailSlice(s: string, i: nat, j: nat)
    requires s != [] && i <= j < |s|
    ensures s[1..][i..j] == s[i + 1..j + 1]
    ensures i == 0 ==> s[0..j + 1] == [s[0]] + s[1..][i..j]
  {
  }

  /** And every stretch of a text is a piece. */
  lemma {:induction false} StretchIsPiece(s: string, sep: char, i: nat, j: nat) returns (k: nat)
    requires IsStretch(s, sep, i, j)
    ensures k < |Split(s, sep)| && Split(s, sep)[k] == s[i..j] && (i == 0 <==> k == 0)
  {
    if s == [] || (s[0] == sep && i == 0) {
      k := 0;
    } else {
      var i', j' := if i == 0 then 0 else i - 1, j - 1;
      TailSlice(s, i', j');
      k := StretchIsPiece(s[1..], sep, i', j');
      if s[0] == sep { k := k + 1; }
    }
  }
}
