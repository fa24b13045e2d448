/**
  Expansion of a Rust use tree into its leaf paths. The expander works on strings alone; the specification is a syntax
  tree with nested groups, aliases, arbitrary blank padding and trailing commas, its printed form and its leaf paths.
*/
module UseTree {
  import opened Wrappers

  // ------------------------------------------------------------------------ string primitives

  /** Unicode white space, as trimming understands it. */
  predicate IsSpace(c: char) {
    || '\t' <= c <= '\r' || c == ' ' || c == '\U{0085}' || c == '\U{00A0}' || c == '\U{1680}'
    || '\U{2000}' <= c <= '\U{200A}' || c == '\U{2028}' || c == '\U{2029}' || c == '\U{202F}' || c == '\U{205F}'
      || c == '\U{3000}'
  }

  function TrimLeft(s: string): (t: string)
    ensures |t| <= |s|
  {
    if s == "" || !IsSpace(s[0]) then s else TrimLeft(s[1..])
  }

  function TrimRight(s: string): (t: string)
    ensures |t| <= |s|
  {
    if s == "" || !IsSpace(s[|s| - 1]) then s else TrimRight(s[..|s| - 1])
  }

  function Trim(s: string): (t: string)
    ensures |t| <= |s|
  {
    TrimRight(TrimLeft(s))
  }

  function Index(s: string, c: char): (i: Option<nat>)
    ensures i.Some? ==> i.value < |s| && s[i.value] == c
    ensures i.None? ==> c !in s
  {
    if s == "" then None
    else if s[0] == c then Some(0)
    else var rest := Index(s[1..], c); if rest.Some? then Some(rest.value + 1) else None
  }

  function LastIndex(s: string, c: char): (i: Option<nat>)
    ensures i.Some? ==> i.value < |s| && s[i.value] == c
  {
    if s == "" then None else if s[|s| - 1] == c then Some(|s| - 1) else LastIndex(s[..|s| - 1], c)
  }

  const AS: string := " as "

  function IndexAs(s: string): (i: Option<nat>)
    ensures i.Some? ==> i.value + |AS| <= |s| && s[i.value..i.value + |AS|] == AS
  {
    if |s| < |AS| then None
    else if s[..|AS|] == AS then Some(0)
    else
      var rest := IndexAs(s[1..]);
      if rest.Some? then
        assert s[rest.value + 1..rest.value + 1 + |AS|] == s[1..][rest.value..rest.value + |AS|];
        Some(rest.value + 1)
      else None
  }

  const SEP: string := "::"

  function TrimSep(s: string): string {
    if |s| >= |SEP| && s[|s| - |SEP|..] == SEP then s[..|s| - |SEP|] else s
  }

  // --------------------------------------------------------------------------- splitting

  function Deeper(depth: int, c: char): int {
    if c == '{' then depth + 1 else if c == '}' then depth - 1 else depth
  }

  /** The pieces with a text put in front of the first. */
  function Grow(head: string, parts: seq<string>): (grown: seq<string>)
    requires |parts| > 0
    ensures |grown| == |parts|
  {
    [head + parts[0]] + parts[1..]
  }

  lemma GrowGrows(a: string, b: string, parts: seq<string>)
    requires |parts| > 0
    ensures Grow("", parts) == parts
    ensures Grow(a, Grow(b, parts)) == Grow(a + b, parts)
    ensures Grow(a, [""] + parts) == [a] + parts
  {
    assert "" + parts[0] == parts[0];
    assert a + (b + parts[0]) == a + b + parts[0];
    assert a + "" == a;
  }

  /** The pieces between commas that stand outside braces, reading from the given depth. */
  function Split(s: string, depth: int): (parts: seq<string>)
    ensures |parts| > 0
  {
    if s == "" then [""]
    else if s[0] == ',' && depth == 0 then [""] + Split(s[1..], depth)
    else Grow([s[0]], Split(s[1..], Deeper(depth, s[0])))
  }

  lemma {:induction false} PiecesAreShort(s: string, depth: int)
    ensures forall p <- Split(s, depth) :: |p| <= |s|
  {
    if s == "" {
    } else {
      PiecesAreShort(s[1..], Deeper(depth, s[0]));
    }
  }

  method SplitTopLevel(s: string) returns (parts: seq<string>)
    ensures parts == Split(s, 0)
  {
    hide Grow;
    parts := [];
    var depth, start := 0, 0;
    var i := 0;
    assert s[0..] == s && s[0..0] == "" && [] + Split(s, 0) == Split(s, 0);
    GrowGrows("", "", Split(s, 0));
    while i < |s|
      invariant 0 <= start <= i <= |s|
      invariant Split(s, 0) == parts + Grow(s[start..i], Split(s[i..], depth))
    {
      ghost var rest := Split(s[i + 1..], Deeper(depth, s[i]));
      assert s[i..][1..] == s[i + 1..];
      GrowGrows(s[start..i], [s[i]], rest);
      if s[i] == '{' {
        depth := depth + 1;
      } else if s[i] == '}' {
        depth := depth - 1;
      } else if s[i] == ',' && depth == 0 {
        assert parts + ([s[start..i]] + rest) == parts + [s[start..i]] + rest;
        parts := parts + [s[start..i]];
        start := i + 1;
        assert s[start..i + 1] == "";
        i := i + 1;
        continue;
      }
      assert s[start..i] + [s[i]] == s[start..i + 1];
      i := i + 1;
    }
    assert s[i..] == "" && s[start..i] == s[start..];
    parts := parts + [s[start..]];
    GrowOne(s[start..]);
  }

  lemma GrowOne(a: string)
    ensures Grow(a, [""]) == [a]
  {
    assert a + "" == a;
  }

  function Join(parts: seq<string>): string
    requires |parts| > 0
  {
    if |parts| == 1 then parts[0] else parts[0] + "," + Join(parts[1..])
  }

  /** Splitting loses nothing: the pieces joined by commas are the text. */
  lemma {:induction false} SplitLosesNothing(s: string, depth: int)
    ensures Join(Split(s, depth)) == s
  {
    if s == "" {
    } else {
      var d := Deeper(depth, s[0]);
      SplitLosesNothing(s[1..], d);
      var parts, rest := Split(s, depth), Split(s[1..], d);
      assert [s[0]] + s[1..] == s;
      if s[0] == ',' && depth == 0 {
        assert parts[1..] == rest;
      } else {
        assert parts[1..] == rest[1..];
      }
    }
  }

  /** Where the reading depth ends, if no comma of the text is a cut. */
  function Walk(s: string, depth: int): Option<int> {
    if s == "" then Some(depth)
    else if s[0] == ',' && depth == 0 then None
    else Walk(s[1..], Deeper(depth, s[0]))
  }

  /** No piece holds another cut; with the above this fixes where every cut is. */
  lemma {:induction false} SplitCutsEverywhere(s: string, depth: int)
    ensures Walk(Split(s, depth)[0], depth).Some?
    ensures forall i | 0 < i < |Split(s, depth)| :: Walk(Split(s, depth)[i], 0).Some?
  {
    if s == "" {
    } else {
      var d := Deeper(depth, s[0]);
      SplitCutsEverywhere(s[1..], d);
      var parts, rest := Split(s, depth), Split(s[1..], d);
      if s[0] == ',' && depth == 0 {
        assert parts[1..] == rest;
      } else {
        assert parts[0][1..] == rest[0];
        assert parts[1..] == rest[1..];
      }
    }
  }

  lemma {:induction false} WalkConcat(a: string, b: string, depth: int)
    requires Walk(a, depth).Some?
    ensures Walk(a + b, depth) == Walk(b, Walk(a, depth).value)
  {
    if a == "" {
      assert a + b == b;
    } else {
      assert (a + b)[1..] == a[1..] + b;
      WalkConcat(a[1..], b, Deeper(depth, a[0]));
    }
  }

  lemma {:induction false} SplitSolid(a: string, b: string, depth: int)
    requires Walk(a, depth).Some?
    ensures Split(a + b, depth) == Grow(a, Split(b, Walk(a, depth).value))
  {
    hide Grow;
    var rest := Split(b, Walk(a, depth).value);
    if a == "" {
      assert a + b == b;
      GrowGrows("", "", rest);
    } else {
      assert (a + b)[0] == a[0] && (a + b)[1..] == a[1..] + b && [a[0]] + a[1..] == a;
      SplitSolid(a[1..], b, Deeper(depth, a[0]));
      GrowGrows([a[0]], a[1..], rest);
    }
  }

  // --------------------------------------------------------------------------- expansion

  function Prefixed(prefix: string, leaves: seq<string>): seq<string> {
    if leaves == [] then [] else [prefix + SEP + leaves[0]] + Prefixed(prefix, leaves[1..])
  }

  /** Every recursive call is on a strictly shorter string, so expansion ends on every input, well formed or not. */
  function Expand(s: string): seq<string>
    decreases |s|, 0, 0
  {
    var t := Trim(s);
    if t == "" then []
    else if t[0] == '{' then
      var end := LastIndex(t, '}');
      if end.None? then [] else PiecesAreShort(t[1..end.value], 0); ExpandAll(Split(t[1..end.value], 0), |t| - 2)
    else
      var i := Index(t, '{');
      if i.Some? then Prefixed(TrimSep(Trim(t[..i.value])), Expand(t[i.value..]))
      else
        var k := IndexAs(t);
        [Trim(if k.Some? then t[..k.value] else t)]
  }

  function ExpandAll(parts: seq<string>, ghost longest: nat): seq<string>
    requires forall p <- parts :: |p| <= longest
    decreases longest, 1, |parts|
  {
    if parts == [] then [] else Expand(parts[0]) + ExpandAll(parts[1..], longest)
  }

  // ------------------------------------------------------------------------- syntax trees

  datatype Tree =
    | Leaf(path: string, alias: Option<Alias>)
    | Group(prefix: Option<Prefix>, items: seq<Item>, trailing: Option<string>)

  // An alias and the blanks before and after its keyword, beyond the one the keyword brings.
  datatype Alias = Alias(before: string, after: string, name: string)

  // The path in front of a group and the blanks before its brace.
  datatype Prefix = Prefix(path: string, gap: string)

  // An item and the blanks around it.
  datatype Item = Item(before: string, tree: Tree, after: string)

  predicate Smooth(s: string) {
    forall i | 0 <= i < |s| :: s[i] != '{' && s[i] != '}' && s[i] != ','
  }

  predicate Plain(s: string) {
    Smooth(s) && forall i | 0 <= i < |s| :: !IsSpace(s[i])
  }

  predicate Blank(s: string) {
    forall i | 0 <= i < |s| :: IsSpace(s[i])
  }

  predicate WellFormed(t: Tree) {
    match t
    case Leaf(path, alias) =>
      && path != "" && Plain(path)
      && (alias.Some? ==>
        && Blank(alias.value.before) && Blank(alias.value.after) && alias.value.name != ""
        && Plain(alias.value.name))
    case Group(prefix, items, trailing) =>
      && (prefix.Some? ==> Plain(prefix.value.path) && Blank(prefix.value.gap))
      && (trailing.Some? ==> Blank(trailing.value))
      && forall x <- items :: Blank(x.before) && Blank(x.after) && WellFormed(x.tree)
  }

  function Print(t: Tree): string {
    match t
    case Leaf(path, alias) => path + PrintAlias(alias)
    case Group(prefix, items, trailing) =>
      PrintPrefix(prefix) + ("{" + (PrintItems(items) + PrintTrailing(trailing)) + "}")
  }

  function PrintAlias(alias: Option<Alias>): string {
    if alias.Some? then alias.value.before + AS + (alias.value.after + alias.value.name) else ""
  }

  function PrintPrefix(prefix: Option<Prefix>): string {
    if prefix.Some? then prefix.value.path + SEP + prefix.value.gap else ""
  }

  function PrintTrailing(trailing: Option<string>): string {
    if trailing.Some? then "," + trailing.value else ""
  }

  function PrintItems(items: seq<Item>): string {
    if items == [] then ""
    else PrintItem(items[0]) + (if |items| == 1 then "" else "," + PrintItems(items[1..]))
  }

  function PrintItem(x: Item): string {
    x.before + Print(x.tree) + x.after
  }

  /** The leaf paths, in order, with the group prefixes in front and the aliases gone. */
  function Leaves(t: Tree): seq<string> {
    match t
    case Leaf(path, _) => [path]
    case Group(prefix, items, _) => if prefix.Some? then Prefixed(prefix.value.path, LeavesOf(items))
      else LeavesOf(items)
  }

  function LeavesOf(items: seq<Item>): seq<string> {
    if items == [] then [] else Leaves(items[0].tree) + LeavesOf(items[1..])
  }

  // ------------------------------------------------------------------ facts about strings

  lemma {:induction false} TrimLeftPadded(b: string, m: string)
    requires Blank(b) && (m != "" ==> !IsSpace(m[0]))
    ensures TrimLeft(b + m) == m
  {
    if b == "" {
      assert b + m == m;
    } else {
      assert (b + m)[1..] == b[1..] + m;
      TrimLeftPadded(b[1..], m);
    }
  }

  lemma {:induction false} TrimRightPadded(m: string, a: string)
    requires Blank(a) && (m != "" ==> !IsSpace(m[|m| - 1]))
    ensures TrimRight(m + a) == m
  {
    if a == "" {
      assert m + a == m;
    } else {
      assert (m + a)[..|m + a| - 1] == m + a[..|a| - 1];
      TrimRightPadded(m, a[..|a| - 1]);
    }
  }

  lemma TrimPadded(b: string, m: string, a: string)
    requires Blank(b) && Blank(a) && (m != "" ==> !IsSpace(m[0]) && !IsSpace(m[|m| - 1]))
    ensures Trim(b + m + a) == m
  {
    assert b + m + a == b + (m + a);
    if m == "" {
      assert b + m + a == (b + a) + "";
      TrimLeftPadded(b + a, "");
    } else {
      TrimLeftPadded(b, m + a);
      TrimRightPadded(m, a);
    }
  }

  lemma {:induction false} IndexAfter(a: string, c: char, b: string)
    requires c !in a
    ensures Index(a + [c] + b, c) == Some(|a|)
  {
    if a == "" {
      assert a + [c] + b == [c] + b;
    } else {
      assert (a + [c] + b)[1..] == a[1..] + [c] + b;
      IndexAfter(a[1..], c, b);
    }
  }

  lemma {:induction false} IndexAsAfter(path: string, gap: string, rest: string)
    requires Plain(path) && Blank(gap)
    ensures IndexAs(path + gap + AS + rest) == Some(|path + gap|)
  {
    var s := path + gap + AS + rest;
    if path == "" && gap == "" {
      assert s[..|AS|] == AS;
    } else {
      assert s[..|AS|][0] == s[0] && s[..|AS|][1] == s[1];
      assert !IsSpace('a') && AS[0] == ' ' && AS[1] == 'a';
      if path != "" {
        assert s[1..] == path[1..] + gap + AS + rest;
        IndexAsAfter(path[1..], gap, rest);
      } else {
        assert IsSpace(s[1]);
        assert s[1..] == path + gap[1..] + AS + rest;
        IndexAsAfter(path, gap[1..], rest);
      }
    }
  }

  lemma {:induction false} IndexAsNeedsABlank(s: string)
    requires ' ' !in s
    ensures IndexAs(s).None?
  {
    if |s| >= |AS| {
      assert s[..|AS|][0] == s[0];
      IndexAsNeedsABlank(s[1..]);
    }
  }

  // ---------------------------------------------------------------- facts about printed trees

  lemma {:induction false} SmoothWalk(s: string, depth: int)
    requires Smooth(s)
    ensures Walk(s, depth) == Some(depth)
  {
    if s == "" {
    } else {
      SmoothWalk(s[1..], depth);
    }
  }

  lemma {:induction false} CommaWalk(s: string, depth: int)
    requires depth > 0
    requires Walk(s, depth) == Some(depth)
    ensures Walk("," + s, depth) == Some(depth)
  {
    assert ("," + s)[1..] == s;
  }

  lemma {:induction false} PrintWalk(t: Tree, depth: nat)
    requires WellFormed(t)
    ensures Walk(Print(t), depth) == Some(depth)
  {
    match t
    case Leaf(path, alias) =>
      SmoothWalk(Print(t), depth);
    case Group(prefix, items, trailing) =>
      var body := PrintItems(items) + PrintTrailing(trailing);
      PrintItemsWalk(items, depth + 1);
      TrailingWalk(trailing, depth + 1);
      WalkConcat(PrintItems(items), PrintTrailing(trailing), depth + 1);
      BracedWalk(body, depth);
      SmoothWalk(PrintPrefix(prefix), depth);
      WalkConcat(PrintPrefix(prefix), "{" + body + "}", depth);
  }

  lemma TrailingWalk(trailing: Option<string>, depth: nat)
    requires trailing.Some? ==> Blank(trailing.value)
    requires depth > 0
    ensures Walk(PrintTrailing(trailing), depth) == Some(depth)
  {
    if trailing.Some? {
      SmoothWalk(trailing.value, depth);
      CommaWalk(trailing.value, depth);
    }
  }

  lemma BracedWalk(body: string, depth: nat)
    requires Walk(body, depth + 1) == Some(depth + 1)
    ensures Walk("{" + body + "}", depth) == Some(depth)
  {
    assert ("{" + body + "}")[1..] == body + "}";
    WalkConcat(body, "}", depth + 1);
    assert "}"[1..] == "";
    assert Walk("}", depth + 1) == Walk("", depth);
  }

  lemma {:induction false} PrintItemWalk(x: Item, depth: nat)
    requires Blank(x.before) && Blank(x.after) && WellFormed(x.tree)
    ensures Walk(PrintItem(x), depth) == Some(depth)
  {
    SmoothWalk(x.before, depth);
    PrintWalk(x.tree, depth);
    SmoothWalk(x.after, depth);
    WalkConcat(x.before, Print(x.tree), depth);
    WalkConcat(x.before + Print(x.tree), x.after, depth);
  }

  lemma {:induction false} PrintItemsWalk(items: seq<Item>, depth: nat)
    requires depth > 0
    requires forall x <- items :: Blank(x.before) && Blank(x.after) && WellFormed(x.tree)
    ensures Walk(PrintItems(items), depth) == Some(depth)
  {
    if items == [] {
    } else {
      PrintItemWalk(items[0], depth);
      if |items| == 1 {
        assert PrintItems(items) == PrintItem(items[0]);
      } else {
        PrintItemsWalk(items[1..], depth);
        CommaWalk(PrintItems(items[1..]), depth);
        WalkConcat(PrintItem(items[0]), "," + PrintItems(items[1..]), depth);
      }
    }
  }

  lemma PrintEnds(t: Tree)
    requires WellFormed(t)
    ensures Print(t) != "" && !IsSpace(Print(t)[0]) && !IsSpace(Print(t)[|Print(t)| - 1])
  {
  }

  // --------------------------------------------------------------------------- round trip

  lemma BlankExpands(s: string)
    requires Blank(s)
    ensures Expand(s) == []
  {
    TrimPadded(s, "", "");
    assert s + "" + "" == s;
  }

  /**
    Expanding the printed form of any well-formed use tree, however deeply grouped, padded, aliased or comma-terminated,
    gives exactly its leaf paths in order.
  */
  lemma {:induction false} RoundTrip(t: Tree, before: string, after: string)
    requires WellFormed(t) && Blank(before) && Blank(after)
    ensures Expand(before + Print(t) + after) == Leaves(t)
    decreases t
  {
    PrintEnds(t);
    TrimPadded(before, Print(t), after);
    match t
    case Leaf(path, alias) => LeafExpands(path, alias, before + Print(t) + after);
    case Group(prefix, items, trailing) =>
      var body := PrintItems(items) + PrintTrailing(trailing);
      var braced := "{" + body + "}";
      if prefix.Some? {
        TrimPadded("", braced, "");
        assert "" + braced + "" == braced;
        BracedExpands(items, trailing, braced);
        PrefixExpands(prefix.value, braced, before + Print(t) + after);
      } else {
        assert Print(t) == braced;
        BracedExpands(items, trailing, before + Print(t) + after);
      }
  }

  lemma FlatExpands(s: string)
    requires Trim(s) != "" && Smooth(Trim(s))
    ensures var k := IndexAs(Trim(s)); Expand(s) == [Trim(if k.Some? then Trim(s)[..k.value] else Trim(s))]
  {
  }

  lemma LeafIsSmooth(path: string, alias: Option<Alias>)
    requires WellFormed(Leaf(path, alias))
    ensures Smooth(path + PrintAlias(alias)) && ' ' !in path
  {
  }

  lemma LeafExpands(path: string, alias: Option<Alias>, s: string)
    requires WellFormed(Leaf(path, alias))
    requires Trim(s) == path + PrintAlias(alias)
    ensures Expand(s) == [path]
  {
    hide IndexAs, Trim, Expand, IsSpace;
    LeafIsSmooth(path, alias);
    FlatExpands(s);
    if alias.Some? {
      var gap, rest := alias.value.before, alias.value.after + alias.value.name;
      assert Trim(s) == path + gap + AS + rest;
      IndexAsAfter(path, gap, rest);
      assert Trim(s)[..|path + gap|] == "" + path + gap;
      TrimPadded("", path, gap);
    } else {
      assert Trim(s) == path == "" + path + "";
      IndexAsNeedsABlank(path);
      TrimPadded("", path, "");
    }
  }

  lemma PrefixExpands(prefix: Prefix, braced: string, s: string)
    requires Plain(prefix.path) && Blank(prefix.gap)
    requires braced != "" && braced[0] == '{'
    requires Trim(s) == prefix.path + SEP + prefix.gap + braced
    ensures Expand(s) == Prefixed(prefix.path, Expand(braced))
  {
    var t := Trim(s);
    var lead := prefix.path + SEP + prefix.gap;
    assert braced == "{" + braced[1..];
    assert t == lead + "{" + braced[1..];
    IndexAfter(lead, '{', braced[1..]);
    assert t[..|lead|] == lead == "" + (prefix.path + SEP) + prefix.gap && t[|lead|..] == braced;
    TrimPadded("", prefix.path + SEP, prefix.gap);
    assert TrimSep(prefix.path + SEP) == prefix.path;
  }

  lemma {:induction false} BracedExpands(items: seq<Item>, trailing: Option<string>, s: string)
    requires forall x <- items :: Blank(x.before) && Blank(x.after) && WellFormed(x.tree)
    requires trailing.Some? ==> Blank(trailing.value)
    requires Trim(s) == "{" + (PrintItems(items) + PrintTrailing(trailing)) + "}"
    ensures Expand(s) == LeavesOf(items)
    decreases items, 1
  {
    var t := Trim(s);
    var body := PrintItems(items) + PrintTrailing(trailing);
    assert t[1..|t| - 1] == body;
    assert LastIndex(t, '}') == Some(|t| - 1);
    PiecesAreShort(body, 0);
    BodyExpands(items, trailing, |t| - 2);
  }

  lemma {:induction false} BodyExpands(items: seq<Item>, trailing: Option<string>, longest: nat)
    requires forall x <- items :: Blank(x.before) && Blank(x.after) && WellFormed(x.tree)
    requires trailing.Some? ==> Blank(trailing.value)
    requires |PrintItems(items) + PrintTrailing(trailing)| <= longest
    ensures forall p <- Split(PrintItems(items) + PrintTrailing(trailing), 0) :: |p| <= longest
    ensures ExpandAll(Split(PrintItems(items) + PrintTrailing(trailing), 0), longest) == LeavesOf(items)
    decreases items, 0
  {
    hide Expand, Split, Blank, PrintItem, Print, PrintTrailing, Leaves;
    if items == [] {
      TrailingExpands("", trailing, longest);
      BlankExpands("") by { EmptyIsBlank(); }
    } else {
      var x := items[0];
      PrintItemWalk(x, 0);
      RoundTrip(x.tree, x.before, x.after);
      assert Expand(PrintItem(x)) == Leaves(x.tree) by { PrintItemIs(x); }
      if |items| == 1 {
        assert PrintItems(items) == PrintItem(x);
        TrailingExpands(PrintItem(x), trailing, longest);
        assert LeavesOf(items[1..]) == [];
      } else {
        var rest := PrintItems(items[1..]) + PrintTrailing(trailing);
        assert PrintItems(items) + PrintTrailing(trailing) == PrintItem(x) + ("," + rest);
        HeadExpands(PrintItem(x), rest, longest);
        BodyExpands(items[1..], trailing, longest);
      }
    }
  }

  lemma EmptyIsBlank()
    ensures Blank("")
  {
  }

  lemma PrintItemIs(x: Item)
    ensures PrintItem(x) == x.before + Print(x.tree) + x.after
  {
  }

  /** The piece before a top-level comma expands on its own. */
  lemma HeadExpands(head: string, rest: string, longest: nat)
    requires Walk(head, 0) == Some(0)
    requires |head + ("," + rest)| <= longest
    ensures forall p <- Split(head + ("," + rest), 0) + Split(rest, 0) :: |p| <= longest
    ensures ExpandAll(Split(head + ("," + rest), 0), longest) == Expand(head) + ExpandAll(Split(rest, 0), longest)
  {
    hide Grow, Expand;
    PiecesAreShort(head + ("," + rest), 0);
    PiecesAreShort(rest, 0);
    SplitSolid(head, "," + rest, 0);
    assert ("," + rest)[1..] == rest;
    GrowGrows(head, "", Split(rest, 0));
    assert ([head] + Split(rest, 0))[1..] == Split(rest, 0);
  }

  lemma SolidExpands(s: string, longest: nat)
    requires Walk(s, 0) == Some(0) && |s| <= longest
    ensures Split(s, 0) == [s]
    ensures ExpandAll(Split(s, 0), longest) == Expand(s)
  {
    hide Grow, Expand;
    SplitSolid(s, "", 0);
    GrowOne(s);
    assert s + "" == s;
    assert [s][1..] == [];
  }

  lemma TrailingExpands(last: string, trailing: Option<string>, longest: nat)
    requires Walk(last, 0) == Some(0)
    requires trailing.Some? ==> Blank(trailing.value)
    requires |last + PrintTrailing(trailing)| <= longest
    ensures forall p <- Split(last + PrintTrailing(trailing), 0) :: |p| <= longest
    ensures ExpandAll(Split(last + PrintTrailing(trailing), 0), longest) == Expand(last)
  {
    hide Grow, Expand;
    if trailing.Some? {
      HeadExpands(last, trailing.value, longest);
      SmoothWalk(trailing.value, 0);
      SolidExpands(trailing.value, longest);
      BlankExpands(trailing.value);
    } else {
      assert last + "" == last;
      SolidExpands(last, longest);
    }
  }
}
