/** The line format shared by packet heads (raet/road/packeting.py) and page heads
    (raet/lane/paging.py): `key value` lines, ended by the first blank line. */
module HeadLines {
  import opened Basics

  const HEAD_END := "\n\n"

  type Kit = seq<(string, string)>

  predicate Plain(s: string) { ' ' !in s && '\n' !in s }

  ghost predicate PlainKit(kit: Kit) {
    forall i :: 0 <= i < |kit| ==> Plain(kit[i].0) && Plain(kit[i].1) && kit[i].0 != ""
  }

  function Line(field: (string, string)): string { field.0 + " " + field.1 }

  /** '\n'.join(lines) */
  function Print(kit: Kit): string {
    if kit == [] then ""
    else if |kit| == 1 then Line(kit[0])
    else Line(kit[0]) + "\n" + Print(kit[1..])
  }

  /** str.split on one character */
  function Split(s: string, c: char): (r: seq<string>)
    ensures r != []
  {
    if s == "" then [""]
    else
      var rest := Split(s[1..], c);
      if s[0] == c then [""] + rest else [[s[0]] + rest[0]] + rest[1..]
  }

  /** Position of the first occurrence of pattern, as str.partition and str.replace find it. */
  function Find(s: string, pattern: string): Option<nat> {
    if pattern <= s then Some(0)
    else if s == "" then None
    else
      var at := Find(s[1..], pattern);
      if at.None? then None else Some(at.value + 1)
  }

  /** s.replace(pattern, put, 1) */
  function ReplaceFirst(s: string, pattern: string, put: string): string {
    match Find(s, pattern)
    case None => s
    case Some(i) => if i + |pattern| <= |s| then s[..i] + put + s[i + |pattern|..] else s
  }

  /** The fields of a head's lines; None is the ValueError of a line that is not one key, one
      space and one value. */
  function Fields(lines: seq<string>): Option<Kit> {
    if lines == [] then Some([])
    else
      var parts := Split(lines[0], ' ');
      var rest := Fields(lines[1..]);
      if |parts| != 2 || rest.None? then None else Some([(parts[0], parts[1])] + rest.value)
  }

  function Parse(front: string): Option<Kit> {
    Fields(Split(front, '\n'))
  }

  // ------------------------------------------------------------------ Round trip

  lemma {:induction false} SplitAt(a: string, c: char, b: string)
    requires c !in a
    ensures Split(a + [c] + b, c) == [a] + Split(b, c)
  {
    if a == "" {
      assert a + [c] + b == [c] + b;
      assert ([c] + b)[1..] == b;
    } else {
      assert a[0] in a && (a + [c] + b)[0] == a[0];
      assert (a + [c] + b)[1..] == a[1..] + [c] + b;
      SplitAt(a[1..], c, b);
      assert [a[0]] + a[1..] == a;
    }
  }

  lemma {:induction false} SplitNone(a: string, c: char)
    requires c !in a
    ensures Split(a, c) == [a]
  {
    if a != "" {
      assert a[0] in a;
      SplitNone(a[1..], c);
      assert [a[0]] + a[1..] == a;
    }
  }

  lemma LineSplits(field: (string, string))
    requires Plain(field.0) && Plain(field.1)
    ensures Split(Line(field), ' ') == [field.0, field.1] && '\n' !in Line(field)
  {
    assert Line(field) == field.0 + [' '] + field.1;
    SplitAt(field.0, ' ', field.1);
    SplitNone(field.1, ' ');
    assert [field.0] + [field.1] == [field.0, field.1];
    assert '\n' !in Line(field);
  }

  /** Whatever plain fields are printed are read back, in order. */
  lemma {:induction false} ParsePrint(kit: Kit)
    requires PlainKit(kit) && kit != []
    ensures Parse(Print(kit)) == Some(kit)
  {
    LineSplits(kit[0]);
    if |kit| == 1 {
      SplitNone(Line(kit[0]), '\n');
      assert Fields([Line(kit[0])][1..]) == Some([]);
      assert kit == [(kit[0].0, kit[0].1)] + [];
    } else {
      assert Print(kit) == Line(kit[0]) + ['\n'] + Print(kit[1..]);
      SplitAt(Line(kit[0]), '\n', Print(kit[1..]));
      var lines := Split(Print(kit[1..]), '\n');
      assert ([Line(kit[0])] + lines)[1..] == lines;
      ParsePrint(kit[1..]);
      assert kit == [kit[0]] + kit[1..];
    }
  }

  /** A pattern that begins with c is not found before the first c. */
  lemma {:induction false} FindSkips(a: string, s: string, pattern: string)
    requires pattern != "" && pattern[0] !in a
    ensures Find(a + s, pattern) == match Find(s, pattern) case None => None case Some(i) => Some(|a| + i)
  {
    if a == "" {
      assert a + s == s;
    } else {
      assert (a + s)[0] == a[0] && (a + s)[1..] == a[1..] + s;
      FindSkips(a[1..], s, pattern);
    }
  }

  lemma FindHere(s: string, pattern: string)
    requires pattern <= s
    ensures Find(s, pattern) == Some(0)
  {
  }

  lemma FindSkipsOne(s: string, pattern: string)
    requires s != "" && !(pattern <= s)
    ensures Find(s, pattern) == match Find(s[1..], pattern) case None => None case Some(i) => Some(1 + i)
  {
  }

  /** Nor is it found at a line that goes on with another character. */
  lemma FindSkipsLine(a: string, b: string, s: string, pattern: string)
    requires |pattern| > 1 && pattern[0] == '\n' && '\n' !in a && '\n' !in b
    requires b != "" && b[0] != pattern[1]
    ensures Find(a + ("\n" + (b + s)), pattern)
            == match Find(s, pattern) case None => None case Some(i) => Some(|a| + 1 + |b| + i)
  {
    hide Find;
    var rest := "\n" + (b + s);
    assert rest[1..] == b + s && rest[1] == b[0];
    assert !(pattern <= rest);
    FindSkips(b, s, pattern);
    FindSkipsOne(rest, pattern);
    FindSkips(a, rest, pattern);
  }

  lemma ReplaceAt(s: string, front: string, pattern: string, after: string, put: string)
    requires s == front + pattern + after && Find(s, pattern) == Some(|front|)
    ensures ReplaceFirst(s, pattern, put) == front + put + after
  {
    hide Find;
    assert s[..|front|] == front;
    assert s[|front| + |pattern|..] == after;
  }

  /** A head, every line of it ended, and the blank line. */
  function Ended(kit: Kit): string {
    if kit == [] then "\n" else Line(kit[0]) + "\n" + Ended(kit[1..])
  }

  lemma {:induction false} PrintEnded(kit: Kit)
    requires kit != []
    ensures Print(kit) + HEAD_END == Ended(kit)
  {
    if |kit| == 1 {
      assert Ended(kit[1..]) == "\n";
    } else {
      PrintEnded(kit[1..]);
    }
  }

  /** A line is passed over if what follows it does not start with a newline. */
  lemma PassLine(line: string, tail: string)
    requires '\n' !in line && tail != "" && tail[0] != '\n'
    ensures Find(line + ("\n" + tail), HEAD_END)
            == match Find(tail, HEAD_END) case None => None case Some(i) => Some(|line| + 1 + i)
  {
    hide Find;
    var rest := "\n" + tail;
    FindSkips(line, rest, HEAD_END);
    assert rest[1..] == tail && rest[1] == tail[0];
    assert !(HEAD_END <= rest);
    FindSkipsOne(rest, HEAD_END);
  }

  /** The first blank line is the one that ends the head, whatever follows it. */
  lemma {:induction false} HeadEndsAtBlank(kit: Kit, rest: string)
    requires PlainKit(kit) && kit != []
    ensures Find(Print(kit) + HEAD_END + rest, HEAD_END) == Some(|Print(kit)|)
  {
    LineSplits(kit[0]);
    var line := Line(kit[0]);
    if |kit| == 1 {
      assert Print(kit) + HEAD_END + rest == line + (HEAD_END + rest);
      FindHere(HEAD_END + rest, HEAD_END);
      FindSkips(line, HEAD_END + rest, HEAD_END);
      hide Find;
    } else {
      var tail := Print(kit[1..]) + HEAD_END + rest;
      assert tail[0] == kit[1].0[0];
      assert Print(kit) + HEAD_END + rest == line + ("\n" + tail);
      HeadEndsAtBlank(kit[1..], rest);
      hide Find, Split;
      PassLine(line, tail);
    }
  }

  /** Bytes a kit takes with one newline after each line. */
  function Width(kit: Kit): nat {
    if kit == [] then 0 else |kit[0].0| + |kit[0].1| + 2 + Width(kit[1..])
  }

  lemma WidthCons(field: (string, string), kit: Kit)
    ensures Width([field] + kit) == |field.0| + |field.1| + 2 + Width(kit)
  {
    assert ([field] + kit)[1..] == kit;
  }

  lemma {:induction false} PrintWidth(kit: Kit)
    requires kit != []
    ensures |Print(kit)| + 1 == Width(kit)
  {
    if |kit| > 1 {
      PrintWidth(kit[1..]);
    } else {
      assert Width(kit[1..]) == 0;
    }
  }
}
