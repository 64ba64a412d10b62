/** Text files read line by line with a scanner of the default capacity. */
module TextLines {
  import opened GoStrings

  function Utf8Len(c: char): nat {
    if c < '\U{80}' then 1 else if c < '\U{800}' then 2 else if c < '\U{10000}' then 3 else 4
  }

  function ByteLen(s: string): nat {
    if s == [] then 0 else Utf8Len(s[0]) + ByteLen(s[1..])
  }

  /** The longest line the scanner delivers. */
  predicate Fits(line: string) {
    ByteLen(line) < 65536
  }

  ghost predicate AllFit(lines: seq<string>) {
    forall i :: 0 <= i < |lines| ==> Fits(lines[i])
  }

  // ---- Lines of a file ----

  predicate OneLineText(s: string) {
    '\n' !in s
  }

  function Unlines(lines: seq<string>): string {
    if lines == [] then [] else lines[0] + ['\n'] + Unlines(lines[1..])
  }

  lemma {:induction false} UnlinesJoins(a: seq<string>, b: seq<string>)
    ensures Unlines(a + b) == Unlines(a) + Unlines(b)
  {
    if a == [] {
      assert a + b == b;
    } else {
      assert (a + b)[1..] == a[1..] + b;
      UnlinesJoins(a[1..], b);
      assert a[0] + ['\n'] + (Unlines(a[1..]) + Unlines(b)) == (a[0] + ['\n'] + Unlines(a[1..])) + Unlines(b);
    }
  }

  lemma OneLine(line: string)
    ensures Unlines([line]) == line + "\n"
  {
    assert [line][1..] == [];
    assert line + ['\n'] + [] == line + "\n";
  }

  lemma {:induction false} SplitUnlines(lines: seq<string>)
    requires forall i :: 0 <= i < |lines| ==> OneLineText(lines[i])
    ensures Split(Unlines(lines), '\n') == lines + [""]
  {
    if lines == [] {
    } else {
      SplitUnlines(lines[1..]);
      SplitAtSeparator(lines[0], '\n', Unlines(lines[1..]));
    }
  }
}
