/** Splitting and joining text on a separator, as the standard library does. */
module Lines {
  import opened Wrappers

  const CRLF: string := "\r\n"

  /** The first position at which `sep` occurs. */
  function Find(s: string, sep: string): (r: Option<nat>)
    ensures r.Some? ==> r.value + |sep| <= |s| && s[r.value..r.value + |sep|] == sep
  {
    if sep <= s then Some(0)
    else if s == "" then None
    else
      var rest := Find(s[1..], sep);
      if rest.None? then None else Some(rest.value + 1)
  }

  predicate Contains(s: string, part: string) { Find(s, part).Some? }

  function Split(s: string, sep: string): (r: seq<string>)
    requires sep != ""
    ensures r != []
  {
    var at := Find(s, sep);
    if at.None? then [s] else [s[..at.value]] + Split(s[at.value + |sep|..], sep)
  }

  function Join(lines: seq<string>, sep: string): string
    requires lines != []
  {
    if |lines| == 1 then lines[0] else lines[0] + sep + Join(lines[1..], sep)
  }

  lemma {:induction false} JoinSnoc(lines: seq<string>, last: string, sep: string)
    requires lines != []
    ensures Join(lines + [last], sep) == Join(lines, sep) + sep + last
  {
    var all := lines + [last];
    if |lines| == 1 {
      assert all[1..] == [last];
    } else {
      JoinSnoc(lines[1..], last, sep);
      assert all[1..] == lines[1..] + [last];
      var rest := Join(lines[1..], sep);
      assert lines[0] + sep + (rest + sep + last) == lines[0] + sep + rest + sep + last;
    }
  }

  lemma {:induction false} FindSkips(line: string, sep: string, rest: string)
    requires sep != "" && forall i :: 0 <= i < |line| ==> line[i] != sep[0]
    ensures Find(line + sep + rest, sep) == Some(|line|)
  {
    var s := line + sep + rest;
    if line == "" {
      assert s[..|sep|] == sep;
    } else {
      assert s[0] == line[0];
      assert s[1..] == line[1..] + sep + rest;
      FindSkips(line[1..], sep, rest);
    }
  }

  lemma {:induction false} FindMisses(line: string, sep: string)
    requires sep != "" && forall i :: 0 <= i < |line| ==> line[i] != sep[0]
    ensures Find(line, sep) == None
  {
    if line != "" {
      assert line[0] != sep[0];
      assert !(sep <= line);
      FindMisses(line[1..], sep);
    }
  }

  lemma SplitsFirst(line: string, sep: string, rest: string)
    requires sep != "" && forall i :: 0 <= i < |line| ==> line[i] != sep[0]
    ensures Split(line + sep + rest, sep) == [line] + Split(rest, sep)
  {
    FindSkips(line, sep, rest);
    var s := line + sep + rest;
    assert s[..|line|] == line && s[|line| + |sep|..] == rest;
  }

  /** Splitting a join gives the lines back when no line holds the separator's first character. */
  lemma {:induction false} SplitJoin(lines: seq<string>, sep: string)
    requires lines != [] && sep != ""
    requires forall k, i :: 0 <= k < |lines| && 0 <= i < |lines[k]| ==> lines[k][i] != sep[0]
    ensures Split(Join(lines, sep), sep) == lines
  {
    if |lines| == 1 {
      FindMisses(lines[0], sep);
    } else {
      var rest := Join(lines[1..], sep);
      SplitJoin(lines[1..], sep);
      SplitsFirst(lines[0], sep, rest);
      assert lines == [lines[0]] + lines[1..];
    }
  }

  lemma PrefixIs(p: string, s: string)
    ensures p <= s <==> exists x :: s == p + x
  {
    if p <= s {
      assert s == p + s[|p|..];
    }
  }

  predicate OccursAt(part: string, s: string, i: nat) {
    i + |part| <= |s| && s[i..i + |part|] == part
  }

  /** The search finds the first occurrence, and none only when there is none. */
  lemma {:induction false} FindIsFirst(s: string, part: string)
    ensures match Find(s, part)
            case Some(at) => OccursAt(part, s, at) && forall i: nat :: i < at ==> !OccursAt(part, s, i)
            case None => forall i: nat :: !OccursAt(part, s, i)
  {
    OccursFirst(part, s);
    if !(part <= s) && s != "" {
      FindIsFirst(s[1..], part);
      forall i: nat | i > 0 ensures OccursAt(part, s, i) <==> OccursAt(part, s[1..], i - 1) {
        OccursLater(part, s, i);
      }
    }
  }

  lemma OccursFirst(part: string, s: string)
    ensures OccursAt(part, s, 0) <==> part <= s
  {
  }

  lemma OccursLater(part: string, s: string, i: nat)
    requires s != "" && i > 0
    ensures OccursAt(part, s, i) <==> OccursAt(part, s[1..], i - 1)
  {
    if i + |part| <= |s| {
      assert s[i..i + |part|] == s[1..][i - 1..i - 1 + |part|];
    }
  }
}
