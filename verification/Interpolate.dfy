/** `interpolate` and `getNestedValue`: {{path}} placeholders filled from a context. */
module Interpolation {
  import opened Base

  datatype Json =
    | Null
    | Bool(b: bool)
    | Num(n: int)
    | Str(s: string)
    | Arr(items: seq<Json>)
    | Obj(fields: map<string, Json>)

  // ----- Paths ------------------------------------------------------------------------------------

  /** path.split(".") */
  function Split(path: string): (keys: seq<string>)
    ensures |keys| > 0
  {
    if path == "" then [""]
    else
      var rest := Split(path[1..]);
      if path[0] == '.' then [""] + rest else [[path[0]] + rest[0]] + rest[1..]
  }

  /** keys.join(".") */
  function Join(keys: seq<string>): string
    requires |keys| > 0
  {
    if |keys| == 1 then keys[0] else keys[0] + "." + Join(keys[1..])
  }

  predicate NoDot(key: string) { '.' !in key }

  lemma {:induction false} JoinSplit(path: string)
    ensures Join(Split(path)) == path && forall i :: 0 <= i < |Split(path)| ==> NoDot(Split(path)[i])
  {
    if path != "" {
      JoinSplit(path[1..]);
      var rest := Split(path[1..]);
      if path[0] == '.' {
        assert Split(path)[1..] == rest;
        assert Join(Split(path)) == "" + "." + path[1..];
      } else {
        assert Split(path)[1..] == rest[1..];
        assert Join(Split(path)) == [path[0]] + Join(rest);
      }
    }
  }

  lemma {:induction false} SplitJoin(keys: seq<string>)
    requires |keys| > 0 && forall i :: 0 <= i < |keys| ==> NoDot(keys[i])
    ensures Split(Join(keys)) == keys
    decreases |keys|, |keys[0]|
  {
    if keys[0] == "" {
      if |keys| > 1 {
        SplitJoin(keys[1..]);
        assert Join(keys) == "." + Join(keys[1..]);
      }
    } else {
      var tail := [keys[0][1..]] + keys[1..];
      assert NoDot(tail[0]);
      SplitJoin(tail);
      assert tail[1..] == keys[1..];
      var path := Join(keys);
      assert path == [keys[0][0]] + Join(tail);
      assert path[1..] == Join(tail);
      assert [path[0]] + tail[0] == keys[0];
      assert [[path[0]] + tail[0]] + tail[1..] == keys;
    }
  }

  predicate Digit(c: char) { '0' <= c <= '9' }

  /** A canonical array index below `n`. */
  function Index(key: string): Option<nat> {
    if key == "" || (key[0] == '0' && |key| > 1) || !(forall i :: 0 <= i < |key| ==> Digit(key[i])) then None
    else Some(Decimal(key))
  }

  function Decimal(key: string): nat
    requires forall i :: 0 <= i < |key| ==> Digit(key[i])
  {
    if key == "" then 0 else assert Digit(key[|key| - 1]); 10 * Decimal(key[..|key| - 1]) + (key[|key| - 1] as int - '0' as int)
  }

  /** acc?.[key], with `None` for undefined. */
  function Member(acc: Option<Json>, key: string): Option<Json> {
    match acc
    case Some(Obj(fields)) => if key in fields then Some(fields[key]) else None
    case Some(Arr(items)) =>
      var i := Index(key);
      if i.Some? && i.value < |items| then Some(items[i.value]) else None
    case _ => None
  }

  /** The reduce over the keys. */
  function Walk(acc: Option<Json>, keys: seq<string>): Option<Json>
    decreases |keys|
  {
    if keys == [] then acc else Walk(Member(acc, keys[0]), keys[1..])
  }

  function GetNestedValue(root: Json, path: string): Option<Json> { Walk(Some(root), Split(path)) }

  // ----- What a path selects ----------------------------------------------------------------------------

  lemma {:induction false} WalkLast(acc: Option<Json>, keys: seq<string>, key: string)
    ensures Walk(acc, keys + [key]) == Member(Walk(acc, keys), key)
    decreases |keys|
  {
    var all := keys + [key];
    if keys == [] {
      assert all == [key] && all[1..] == [];
      assert Walk(Member(acc, key), []) == Member(acc, key);
    } else {
      assert all[0] == keys[0] && all[1..] == keys[1..] + [key];
      WalkLast(Member(acc, keys[0]), keys[1..], key);
    }
  }

  lemma {:induction false} SplitLast(path: string, key: string)
    requires NoDot(key)
    ensures Split(path + "." + key) == Split(path) + [key]
  {
    if path == "" {
      assert path + "." + key == "." + key && ("." + key)[1..] == key;
      SplitJoin([key]);
    } else {
      SplitLast(path[1..], key);
      assert (path + "." + key)[1..] == path[1..] + "." + key;
    }
  }

  /** Paths are followed from left to right: the last key selects a member of what the rest selects. */
  lemma PathSelects(root: Json, path: string, key: string)
    requires NoDot(key)
    ensures GetNestedValue(root, path + "." + key) == Member(GetNestedValue(root, path), key)
  {
    SplitLast(path, key);
    WalkLast(Some(root), Split(path), key);
  }

  /** A single key selects a member of the root. */
  lemma KeySelects(root: Json, key: string)
    requires NoDot(key)
    ensures GetNestedValue(root, key) == Member(Some(root), key)
  {
    SplitJoin([key]);
    assert [key][1..] == [];
    assert Walk(Member(Some(root), key), []) == Member(Some(root), key);
  }

  /** The digits of a number, without leading zeros. */
  function Show(n: nat): (s: string)
    ensures s != "" && forall i :: 0 <= i < |s| ==> Digit(s[i])
  {
    var last := [(n % 10 + '0' as int) as char];
    if n < 10 then last else Show(n / 10) + last
  }

  lemma {:induction false} DecimalShow(n: nat)
    ensures Decimal(Show(n)) == n && (n > 0 ==> Show(n)[0] != '0') && (n == 0 ==> Show(n) == "0")
  {
    var s := Show(n);
    if n >= 10 {
      DecimalShow(n / 10);
      assert s[..|s| - 1] == Show(n / 10);
    } else {
      assert s[..|s| - 1] == "";
    }
  }

  lemma {:induction false} ShowDecimal(key: string)
    requires key != "" && (forall i :: 0 <= i < |key| ==> Digit(key[i])) && (key[0] == '0' ==> |key| == 1)
    ensures Show(Decimal(key)) == key && (|key| > 1 ==> Decimal(key) > 0)
  {
    var front, last := key[..|key| - 1], key[|key| - 1];
    assert key == front + [last] && Digit(last);
    if front == "" {
      assert Decimal(key) == last as int - '0' as int;
    } else {
      assert front[0] == key[0];
      ShowDecimal(front);
      var n := Decimal(key);
      assert Decimal(front) > 0 by { if |front| == 1 { assert Digit(front[0]) && front[..0] == ""; } }
      assert n == 10 * Decimal(front) + (last as int - '0' as int) && n / 10 == Decimal(front) && n >= 10;
    }
  }

  /** An index is the number whose digits the key shows, and nothing else is an index. */
  lemma IndexIff(key: string, n: nat)
    ensures Index(key) == Some(n) <==> key == Show(n)
  {
    DecimalShow(n);
    if Index(key).Some? { ShowDecimal(key); }
    if key == Show(n) && n == 0 { assert key == "0"; }
  }

  /** A member: the value of a field, or the element at an index; nothing of anything else. */
  lemma MemberIff(acc: Option<Json>, key: string, v: Json)
    ensures Member(acc, key) == Some(v) <==>
      || (exists fields :: acc == Some(Obj(fields)) && key in fields && fields[key] == v)
      || (exists items, i :: acc == Some(Arr(items)) && 0 <= i < |items| && key == Show(i) && items[i] == v)
  {
    if acc.Some? && acc.value.Arr? {
      var items := acc.value.items;
      if Member(acc, key) == Some(v) {
        IndexIff(key, Index(key).value);
        assert acc == Some(Arr(items)) && items[Index(key).value] == v;
      }
      forall i | 0 <= i < |items| && key == Show(i) ensures Index(key) == Some(i) { IndexIff(key, i); }
    }
  }

  // ----- Templates --------------------------------------------------------------------------------

  /** The position of the first closing brace at or after `i`, or the end. */
  function NextClose(t: string, i: nat): (j: nat)
    requires i <= |t|
    ensures i <= j <= |t| && (j < |t| ==> t[j] == '}') && (forall k :: i <= k < j ==> t[k] != '}')
    decreases |t| - i
  {
    if i == |t| || t[i] == '}' then i else NextClose(t, i + 1)
  }

  /** The expression /\{\{([^}]+)\}\}/ matches the first `n` characters. */
  predicate Matches(t: string, n: nat) {
    && 5 <= n <= |t|
    && t[..2] == "{{" && t[n - 2..n] == "}}"
    && forall k :: 2 <= k < n - 2 ==> t[k] != '}'
  }

  /** The length of the match at the front of `t`; 0 when there is none. */
  function MatchLength(t: string): (n: nat)
    ensures n <= |t|
  {
    if |t| < 2 || t[..2] != "{{" then 0
    else
      var j := NextClose(t, 2);
      if 3 <= j && j + 1 < |t| && t[j + 1] == '}' then j + 2 else 0
  }

  lemma MatchLengthIff(t: string, n: nat)
    requires n > 0
    ensures MatchLength(t) == n <==> Matches(t, n)
  {
    if Matches(t, n) {
      assert t[n - 2..n][0] == t[n - 2] && t[n - 2..n][1] == t[n - 1];
    }
  }

  datatype Token = Lit(c: char) | Hole(path: string)

  /** The leftmost scan of a global replace. */
  function Scan(t: string): seq<Token>
    decreases |t|
  {
    if t == "" then []
    else
      var n := MatchLength(t);
      if n > 0 then (MatchLengthIff(t, n); [Hole(t[2..n - 2])] + Scan(t[n..])) else [Lit(t[0])] + Scan(t[1..])
  }

  function Print(k: Token): string {
    match k
    case Lit(c) => [c]
    case Hole(path) => "{{" + path + "}}"
  }

  function PrintAll(ks: seq<Token>): string { if ks == [] then "" else Print(ks[0]) + PrintAll(ks[1..]) }

  /** The tokens are a leftmost split of what they print: a literal never starts a placeholder. */
  predicate Leftmost(ks: seq<Token>) {
    ks == [] ||
    (&& (match ks[0]
         case Lit(_) => MatchLength(PrintAll(ks)) == 0
         case Hole(path) => path != "" && '}' !in path)
     && Leftmost(ks[1..]))
  }

  lemma SplitMatch(t: string, n: nat)
    requires Matches(t, n)
    ensures t == Print(Hole(t[2..n - 2])) + t[n..] && t[2..n - 2] != "" && '}' !in t[2..n - 2]
  {
    assert t[..n] == t[..2] + t[2..n - 2] + t[n - 2..n];
    assert t == t[..n] + t[n..];
    var path := t[2..n - 2];
    forall k | 0 <= k < |path| ensures path[k] != '}' { assert path[k] == t[k + 2]; }
  }

  /** The scan splits the template into literals and placeholders whose concatenation is the template. */
  lemma {:induction false} ScanPrints(t: string)
    ensures PrintAll(Scan(t)) == t && Leftmost(Scan(t))
    decreases |t|
  {
    if t != "" {
      var n := MatchLength(t);
      if n > 0 {
        MatchLengthIff(t, n);
        SplitMatch(t, n);
        ScanPrints(t[n..]);
        assert Scan(t)[1..] == Scan(t[n..]);
      } else {
        ScanPrints(t[1..]);
        assert Scan(t)[1..] == Scan(t[1..]);
        assert t == [t[0]] + t[1..];
      }
    }
  }

  lemma HoleMatches(path: string, rest: string)
    requires path != "" && '}' !in path
    ensures var t := Print(Hole(path)) + rest; var n := |path| + 4;
      MatchLength(t) == n && t[2..n - 2] == path && t[n..] == rest
  {
    var t := Print(Hole(path)) + rest;
    var n := |path| + 4;
    assert t == "{{" + path + "}}" + rest;
    assert t[2..n - 2] == path;
    forall k | 2 <= k < n - 2 ensures t[k] != '}' {
      assert t[k] == path[k - 2];
    }
    MatchLengthIff(t, n);
  }

  /** It is the only leftmost split. */
  lemma {:induction false} ScanUnique(ks: seq<Token>)
    requires Leftmost(ks)
    ensures Scan(PrintAll(ks)) == ks
  {
    if ks != [] {
      ScanUnique(ks[1..]);
      var t := PrintAll(ks);
      match ks[0]
      case Lit(c) =>
        assert t[1..] == PrintAll(ks[1..]);
      case Hole(path) =>
        HoleMatches(path, PrintAll(ks[1..]));
    }
  }

  // ----- Rendering --------------------------------------------------------------------------------

  predicate Blank(c: char) { c == ' ' || c == '\t' || c == '\n' || c == '\r' }

  function Trim(s: string): string
    decreases |s|
  {
    if s != "" && Blank(s[0]) then Trim(s[1..])
    else if s != "" && Blank(s[|s| - 1]) then Trim(s[..|s| - 1])
    else s
  }

  predicate AllBlank(s: string) { forall i :: 0 <= i < |s| ==> Blank(s[i]) }

  /** `t` is `s` without some blanks at its ends. */
  ghost predicate Trims(s: string, t: string) {
    exists before, after :: s == before + t + after && AllBlank(before) && AllBlank(after)
  }

  lemma TrimsFront(x: char, s: string, t: string)
    requires Blank(x) && Trims(s, t)
    ensures Trims([x] + s, t)
  {
    var before, after :| s == before + t + after && AllBlank(before) && AllBlank(after);
    assert [x] + s == ([x] + before) + t + after && AllBlank([x] + before);
  }

  lemma TrimsBack(s: string, x: char, t: string)
    requires Blank(x) && Trims(s, t)
    ensures Trims(s + [x], t)
  {
    var before, after :| s == before + t + after && AllBlank(before) && AllBlank(after);
    assert s + [x] == before + t + (after + [x]) && AllBlank(after + [x]);
  }

  /** Trimming takes away the blanks at both ends, and nothing else. */
  lemma {:induction false} TrimIff(s: string)
    ensures Trims(s, Trim(s))
    ensures Trim(s) != "" ==> !Blank(Trim(s)[0]) && !Blank(Trim(s)[|Trim(s)| - 1])
    decreases |s|
  {
    if s != "" && Blank(s[0]) {
      TrimIff(s[1..]);
      TrimsFront(s[0], s[1..], Trim(s));
      assert s == [s[0]] + s[1..];
    } else if s != "" && Blank(s[|s| - 1]) {
      TrimIff(s[..|s| - 1]);
      TrimsBack(s[..|s| - 1], s[|s| - 1], Trim(s));
      assert s == s[..|s| - 1] + [s[|s| - 1]];
    } else {
      assert s == "" + s + "" && AllBlank("");
    }
  }

  /** Blanks around a text without outer blanks are what goes. */
  lemma {:induction false} TrimBlanks(before: string, s: string, after: string)
    requires AllBlank(before) && AllBlank(after) && s != "" && !Blank(s[0]) && !Blank(s[|s| - 1])
    ensures Trim(before + s + after) == s
    decreases |before| + |after|
  {
    var all := before + s + after;
    if before != "" {
      assert all[1..] == before[1..] + s + after;
      TrimBlanks(before[1..], s, after);
    } else if after != "" {
      assert all[|all| - 1] == after[|after| - 1] && all[0] == s[0];
      assert all[..|all| - 1] == before + s + after[..|after| - 1];
      TrimBlanks(before, s, after[..|after| - 1]);
    } else {
      assert all == s;
    }
  }

  /** `show` is JavaScript's String(value). */
  datatype Context = Context(root: Json, show: Json -> string)

  function Lookup(c: Context, path: string): Option<Json> { GetNestedValue(c.root, Trim(path)) }

  function Fill(c: Context, k: Token): string {
    match k
    case Lit(x) => [x]
    case Hole(path) =>
      var v := Lookup(c, path);
      if v.Some? then c.show(v.value) else "{{" + path + "}}"
  }

  function FillAll(c: Context, ks: seq<Token>): string { if ks == [] then "" else Fill(c, ks[0]) + FillAll(c, ks[1..]) }

  /** template.replace(...) */
  function Interpolate(t: string, c: Context): string { FillAll(c, Scan(t)) }

  lemma {:induction false} FillConcat(c: Context, a: seq<Token>, b: seq<Token>)
    ensures FillAll(c, a + b) == FillAll(c, a) + FillAll(c, b)
  {
    var ab := a + b;
    if a == [] {
      assert ab == b;
    } else {
      FillConcat(c, a[1..], b);
      assert ab[0] == a[0] && ab[1..] == a[1..] + b;
      Associative(Fill(c, a[0]), FillAll(c, a[1..]), FillAll(c, b));
    }
  }

  lemma Associative(x: string, y: string, z: string)
    ensures x + (y + z) == (x + y) + z
  {}

  /** The output is the token-wise rendering of any leftmost split of the template: the text that
      replaces one placeholder is never looked at again, whatever braces it contains. */
  lemma RenderedTokenwise(c: Context, ks: seq<Token>, i: nat)
    requires Leftmost(ks) && i < |ks|
    ensures Interpolate(PrintAll(ks), c) == FillAll(c, ks[..i]) + Fill(c, ks[i]) + FillAll(c, ks[i + 1..])
  {
    ScanUnique(ks);
    FillMiddle(c, ks, i);
  }

  /** A placeholder alone, blanks around its path or not: the value that the path selects, or itself. */
  lemma PlaceholderRendered(c: Context, before: string, path: string, after: string)
    requires forall x :: x in before || x in after ==> x in {' ', '\t', '\n', '\r'}
    requires path != "" && path[0] !in {' ', '\t', '\n', '\r'} && path[|path| - 1] !in {' ', '\t', '\n', '\r'} && '}' !in path
    ensures var t := "{{" + before + path + after + "}}"; var v := GetNestedValue(c.root, path);
      Interpolate(t, c) == if v == None then t else c.show(v.value)
  {
    forall i | 0 <= i < |before| ensures Blank(before[i]) { assert before[i] in before; }
    forall i | 0 <= i < |after| ensures Blank(after[i]) { assert after[i] in after; }
    var inner := before + path + after;
    var t := "{{" + inner + "}}";
    assert t == "{{" + before + path + after + "}}";
    assert '}' !in inner by {
      forall i | 0 <= i < |inner| ensures inner[i] != '}' {
        if i < |before| { assert Blank(before[i]); } else if i >= |before| + |path| { assert Blank(after[i - |before| - |path|]); }
      }
    }
    TrimBlanks(before, path, after);
    var ks := [Hole(inner)];
    assert ks[1..] == [] && PrintAll(ks) == t + "";
    assert Leftmost(ks);
    ScanUnique(ks);
    assert t + "" == t;
    assert FillAll(c, ks) == Fill(c, ks[0]) + "";
  }

  lemma FillMiddle(c: Context, ks: seq<Token>, i: nat)
    requires i < |ks|
    ensures FillAll(c, ks) == FillAll(c, ks[..i]) + Fill(c, ks[i]) + FillAll(c, ks[i + 1..])
  {
    FillConcat(c, ks[..i], ks[i..]);
    assert ks[..i] + ks[i..] == ks;
    assert ks[i..][1..] == ks[i + 1..];
    Associative(FillAll(c, ks[..i]), Fill(c, ks[i]), FillAll(c, ks[i + 1..]));
  }

  lemma {:induction false} FillNothing(c: Context, ks: seq<Token>)
    requires forall k :: 0 <= k < |ks| && ks[k].Hole? ==> Lookup(c, ks[k].path).None?
    ensures FillAll(c, ks) == PrintAll(ks)
  {
    if ks != [] { FillNothing(c, ks[1..]); }
  }

  /** When no path resolves, the template comes back unchanged, blanks inside the braces included. */
  lemma IdentityWithoutMatches(t: string, c: Context)
    requires forall k :: 0 <= k < |Scan(t)| && Scan(t)[k].Hole? ==> Lookup(c, Scan(t)[k].path).None?
    ensures Interpolate(t, c) == t
  {
    ScanPrints(t);
    FillNothing(c, Scan(t));
  }
}
