/** Command suggestion: the two-row edit-distance table of the CLI, measured against edit
    scripts, and the choice of the command to suggest. */
module EditDistance {

  // ------------------------------------------------------------- edit scripts

  datatype Edit = Insert(at: nat, c: char) | Delete(at: nat) | Substitute(at: nat, c: char)

  predicate Fits(s: string, e: Edit) {
    match e
    case Insert(at, _) => at <= |s|
    case Delete(at) => at < |s|
    case Substitute(at, _) => at < |s|
  }

  function Perform(s: string, e: Edit): string
    requires Fits(s, e)
  {
    match e
    case Insert(at, c) => s[..at] + [c] + s[at..]
    case Delete(at) => s[..at] + s[at + 1..]
    case Substitute(at, c) => s[..at] + [c] + s[at + 1..]
  }

  /** Performing the edits one after the other turns `a` into `b`. */
  predicate Transforms(script: seq<Edit>, a: string, b: string) {
    if script == [] then a == b
    else Fits(a, script[0]) && Transforms(script[1..], Perform(a, script[0]), b)
  }

  // ---------------------------------------------------------------- the table

  function Min3(x: nat, y: nat, z: nat): nat {
    if x <= y && x <= z then x else if y <= z then y else z
  }

  function Init(s: string): string requires s != "" { s[..|s| - 1] }
  function Last(s: string): char requires s != "" { s[|s| - 1] }

  /** The entry of the table for two prefixes. */
  function Distance(a: string, b: string): nat
    decreases |a| + |b|
  {
    if a == "" then |b|
    else if b == "" then |a|
    else Min3(Distance(Init(a), b) + 1, Distance(a, Init(b)) + 1,
              Distance(Init(a), Init(b)) + if Last(a) == Last(b) then 0 else 1)
  }

  ghost function Cell(a: string, b: string, i: nat, j: nat): nat
    requires i <= |a| && j <= |b|
  {
    Distance(a[..i], b[..j])
  }

  lemma CellEdge(a: string, b: string, i: nat, j: nat)
    requires i <= |a| && j <= |b|
    ensures i == 0 ==> Cell(a, b, i, j) == j
    ensures j == 0 ==> Cell(a, b, i, j) == i
  {}

  lemma CellStep(a: string, b: string, i: nat, j: nat)
    requires 1 <= i <= |a| && 1 <= j <= |b|
    ensures Cell(a, b, i, j) == Min3(Cell(a, b, i - 1, j) + 1, Cell(a, b, i, j - 1) + 1,
                                     Cell(a, b, i - 1, j - 1) + if a[i - 1] == b[j - 1] then 0 else 1)
  {
    assert Init(a[..i]) == a[..i - 1] && Init(b[..j]) == b[..j - 1];
  }

  /** One row from the row above it. */
  method NextRow(a: string, b: string, i: nat, prev: array<nat>) returns (cur: array<nat>)
    requires 1 <= i <= |a| && prev.Length == |b| + 1
    requires forall j :: 0 <= j <= |b| ==> prev[j] == Cell(a, b, i - 1, j)
    ensures cur.Length == |b| + 1 && forall j :: 0 <= j <= |b| ==> cur[j] == Cell(a, b, i, j)
  {
    hide Cell;
    cur := new nat[|b| + 1];
    cur[0] := i;
    CellEdge(a, b, i, 0);
    for j := 1 to |b| + 1
      invariant forall k :: 0 <= k < j ==> cur[k] == Cell(a, b, i, k)
    {
      var cost := if a[i - 1] == b[j - 1] then 0 else 1;
      cur[j] := Min3(prev[j] + 1, cur[j - 1] + 1, prev[j - 1] + cost);
      CellStep(a, b, i, j);
    }
  }

  /** `editDistance`: two rows, the finished one and the one being filled. */
  method EditDistance(a: string, b: string) returns (d: nat)
    ensures d == Distance(a, b)
  {
    var prev := new nat[|b| + 1](j => j);
    forall j | 0 <= j <= |b| ensures Cell(a, b, 0, j) == j {
      CellEdge(a, b, 0, j);
    }
    for i := 1 to |a| + 1
      invariant prev.Length == |b| + 1
      invariant forall j :: 0 <= j <= |b| ==> prev[j] == Cell(a, b, i - 1, j)
    {
      prev := NextRow(a, b, i, prev);
    }
    assert a[..|a|] == a && b[..|b|] == b;
    return prev[|b|];
  }

  // -------------------------------------------- no script is shorter than the entry

  lemma DropLast(a: string, b: string)
    ensures a != "" ==> Distance(a, b) <= Distance(Init(a), b) + 1
    ensures b != "" ==> Distance(a, b) <= Distance(a, Init(b)) + 1
  {}

  lemma {:induction false} Same(a: string)
    ensures Distance(a, a) == 0
    decreases |a|
  {
    if a != "" {
      Same(Init(a));
    }
  }

  /** Changing at most one character at the end moves the entry by at most one. */
  lemma {:induction false} EndEdit(a: string, p: string, x: string, y: string)
    requires |x| <= 1 && |y| <= 1
    ensures Distance(a, p + y) <= Distance(a, p + x) + 1
    decreases |a|
  {
    assert |x| == 0 ==> p + x == p;
    assert |x| == 1 ==> Init(p + x) == p;
    assert |y| == 0 ==> p + y == p;
    assert |y| == 1 ==> Init(p + y) == p;
    if a != "" {
      EndEdit(Init(a), p, x, y);
      DropLast(a, p + y);
      DropLast(a, p);
    }
  }

  /** Changing at most one character anywhere moves the entry by at most one. */
  lemma {:induction false} InnerEdit(a: string, p: string, x: string, y: string, q: string)
    requires |x| <= 1 && |y| <= 1
    ensures Distance(a, p + y + q) <= Distance(a, p + x + q) + 1
    decreases |a| + |q|
  {
    if q == "" {
      assert p + y + q == p + y && p + x + q == p + x;
      EndEdit(a, p, x, y);
    } else {
      var s, t := p + x + q, p + y + q;
      assert Init(s) == p + x + Init(q) && Init(t) == p + y + Init(q) && Last(s) == Last(q) == Last(t);
      if a != "" {
        InnerEdit(Init(a), p, x, y, q);
        InnerEdit(a, p, x, y, Init(q));
        InnerEdit(Init(a), p, x, y, Init(q));
      }
    }
  }

  lemma OneEdit(a: string, s: string, e: Edit)
    requires Fits(s, e)
    ensures Distance(a, Perform(s, e)) <= Distance(a, s) + 1
  {
    hide Distance;
    match e
    case Insert(at, c) =>
      assert s == s[..at] + "" + s[at..];
      InnerEdit(a, s[..at], "", [c], s[at..]);
    case Delete(at) =>
      assert s == s[..at] + [s[at]] + s[at + 1..] && Perform(s, e) == s[..at] + "" + s[at + 1..];
      InnerEdit(a, s[..at], [s[at]], "", s[at + 1..]);
    case Substitute(at, c) =>
      assert s == s[..at] + [s[at]] + s[at + 1..];
      InnerEdit(a, s[..at], [s[at]], [c], s[at + 1..]);
  }

  lemma {:induction false} NoShorterScript(a: string, s: string, b: string, script: seq<Edit>)
    requires Transforms(script, s, b)
    ensures Distance(a, b) <= Distance(a, s) + |script|
    decreases |script|
  {
    hide Distance;
    if script != [] {
      OneEdit(a, s, script[0]);
      NoShorterScript(a, Perform(s, script[0]), b, script[1..]);
    }
  }

  // ------------------------------------------------ a script as long as the entry

  lemma {:induction false} Then(first: seq<Edit>, a: string, mid: string, e: Edit)
    requires Transforms(first, a, mid) && Fits(mid, e)
    ensures Transforms(first + [e], a, Perform(mid, e))
    decreases |first|
  {
    if first == [] {
      assert first + [e] == [e];
    } else {
      Then(first[1..], Perform(a, first[0]), mid, e);
      assert (first + [e])[1..] == first[1..] + [e];
    }
  }

  lemma EditBeforeSuffix(a: string, suffix: string, e: Edit)
    requires Fits(a, e)
    ensures Fits(a + suffix, e) && Perform(a + suffix, e) == Perform(a, e) + suffix
  {
    var whole := a + suffix;
    assert whole[..e.at] == a[..e.at];
    assert e.Insert? ==> whole[e.at..] == a[e.at..] + suffix;
    assert !e.Insert? ==> whole[e.at + 1..] == a[e.at + 1..] + suffix;
  }

  /** A script leaves a common suffix alone. */
  lemma {:induction false} BeforeSuffix(script: seq<Edit>, a: string, b: string, suffix: string)
    requires Transforms(script, a, b)
    ensures Transforms(script, a + suffix, b + suffix)
    decreases |script|
  {
    hide Perform;
    if script != [] {
      EditBeforeSuffix(a, suffix, script[0]);
      BeforeSuffix(script[1..], Perform(a, script[0]), b, suffix);
    }
  }

  lemma ByInsert(first: seq<Edit>, a: string, b: string)
    requires b != "" && Transforms(first, a, Init(b))
    ensures Transforms(first + [Insert(|b| - 1, Last(b))], a, b)
  {
    hide Transforms;
    assert Perform(Init(b), Insert(|b| - 1, Last(b))) == b;
    Then(first, a, Init(b), Insert(|b| - 1, Last(b)));
  }

  lemma ByDelete(rest: seq<Edit>, a: string, b: string)
    requires a != "" && Transforms(rest, Init(a), b)
    ensures Transforms([Delete(|a| - 1)] + rest, a, b)
  {
    assert Perform(a, Delete(|a| - 1)) == Init(a);
    assert ([Delete(|a| - 1)] + rest)[1..] == rest;
  }

  lemma BySubstitute(first: seq<Edit>, a: string, b: string)
    requires a != "" && b != "" && Transforms(first, Init(a), Init(b))
    ensures Transforms(first, a, Init(b) + [Last(a)])
    ensures Transforms(first + [Substitute(|b| - 1, Last(b))], a, b)
  {
    hide Transforms;
    assert a == Init(a) + [Last(a)];
    BeforeSuffix(first, Init(a), Init(b), [Last(a)]);
    assert Perform(Init(b) + [Last(a)], Substitute(|b| - 1, Last(b))) == b;
    Then(first, a, Init(b) + [Last(a)], Substitute(|b| - 1, Last(b)));
  }

  lemma {:induction false} ShortestScript(a: string, b: string) returns (script: seq<Edit>)
    ensures Transforms(script, a, b) && |script| == Distance(a, b)
    decreases |a| + |b|
  {
    hide Perform;
    if a == "" && b == "" {
      script := [];
    } else if b != "" && (a == "" || Distance(a, b) == Distance(a, Init(b)) + 1) {
      var first := ShortestScript(a, Init(b));
      script := first + [Insert(|b| - 1, Last(b))];
      ByInsert(first, a, b);
    } else if b == "" || Distance(a, b) == Distance(Init(a), b) + 1 {
      var rest := ShortestScript(Init(a), b);
      script := [Delete(|a| - 1)] + rest;
      ByDelete(rest, a, b);
    } else {
      var first := ShortestScript(Init(a), Init(b));
      BySubstitute(first, a, b);
      if Last(a) == Last(b) {
        script := first;
        assert b == Init(b) + [Last(a)];
      } else {
        script := first + [Substitute(|b| - 1, Last(b))];
      }
    }
  }

  /** The entry of the table is the length of a shortest insert/delete/substitute script. */
  lemma DistanceIsShortest(a: string, b: string)
    ensures exists script :: Transforms(script, a, b) && |script| == Distance(a, b)
    ensures forall script :: Transforms(script, a, b) ==> |script| >= Distance(a, b)
  {
    var best := ShortestScript(a, b);
    forall script | Transforms(script, a, b) ensures |script| >= Distance(a, b) {
      Same(a);
      NoShorterScript(a, a, b, script);
    }
  }

  // ------------------------------------------------------------------ suggestion

  /** `best` is the first command at the least distance from `name` if that is at most two, else
      nothing. */
  ghost predicate Suggested(name: string, commands: seq<string>, best: string) {
    if forall c :: c in commands ==> Distance(name, c) > 2 then best == ""
    else exists k :: && 0 <= k < |commands| && best == commands[k] && Distance(name, best) <= 2
                     && (forall j :: 0 <= j < |commands| ==> Distance(name, best) <= Distance(name, commands[j]))
                     && (forall j :: 0 <= j < k ==> Distance(name, best) < Distance(name, commands[j]))
  }

  /** `suggestCommand` over any list of commands; `lower` stands for `strings.ToLower`. */
  method SuggestCommand(name: string, lower: string -> string, commands: seq<string>) returns (best: string)
    ensures Suggested(lower(name), commands, best)
  {
    best := "";
    var bestDist, at := 3, 0;
    for i := 0 to |commands|
      invariant bestDist <= 3 && at <= i
      invariant bestDist == 3 ==> best == ""
      invariant bestDist < 3 ==> at < i && best == commands[at] && bestDist == Distance(lower(name), best)
      invariant forall j :: 0 <= j < i ==> bestDist <= Distance(lower(name), commands[j])
      invariant bestDist < 3 ==> forall j :: 0 <= j < at ==> bestDist < Distance(lower(name), commands[j])
    {
      var d := EditDistance(lower(name), commands[i]);
      if d < bestDist {
        best, bestDist, at := commands[i], d, i;
      }
    }
    assert bestDist == 3 ==> forall c :: c in commands ==> Distance(lower(name), c) > 2;
    assert bestDist < 3 ==> commands[at] in commands;
  }

  ghost predicate Close(name: string, command: string) {
    exists script :: Transforms(script, name, command) && |script| <= 2
  }

  lemma CloseMeans(name: string, command: string)
    ensures Close(name, command) <==> Distance(name, command) <= 2
  {
    hide Distance;
    var best := ShortestScript(name, command);
    DistanceIsShortest(name, command);
  }

  /** Something is suggested exactly when some command is at most two edits away; it is then such
      a command, and a command is suggested for its own name. */
  lemma SuggestionIsClose(name: string, commands: seq<string>, best: string)
    requires Suggested(name, commands, best)
    ensures if exists c :: c in commands && Close(name, c) then best in commands && Close(name, best) else best == ""
    ensures name in commands ==> best == name
  {
    hide Distance, Close;
    forall c ensures Close(name, c) <==> Distance(name, c) <= 2 {
      CloseMeans(name, c);
    }
    if name in commands {
      Same(name);
      ZeroIsSame(name, best);
    }
  }

  lemma {:induction false} ZeroIsSame(a: string, b: string)
    ensures Distance(a, b) == 0 ==> a == b
    decreases |a|
  {
    if a != "" && b != "" && Distance(a, b) == 0 {
      ZeroIsSame(Init(a), Init(b));
      assert a == Init(a) + [Last(a)] && b == Init(b) + [Last(b)];
    }
  }
}
