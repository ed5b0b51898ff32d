/** The preprocessor's scoped macro table: a global scope, a LIFO stack of
    call-local scopes (one per function-like macro being expanded) and the
    counter behind `__COUNTER__`. */
module MacroTable {
  import opened Reporting
  import opened Strsim

  /** The source's `u16`. */
  newtype u16 = x: int | 0 <= x < 0x1_0000

  /** A function-like macro: its parameters, its body and the position of
      its definition, which the recursion guard compares against. */
  datatype FunctionDefinition = FunctionDefinition(args: seq<Token>, body: seq<Token>, position: Position)

  datatype Definition = Void | Value(tokens: seq<Token>) | Function(func: FunctionDefinition)

  /** A macro binding: the token that defined it and its definition. */
  type Binding = (Token, Definition)

  type Scope = map<string, Binding>

  /** `HashMap::get`. */
  function Lookup(m: Scope, key: string): Option<Binding> {
    if key in m then Some(m[key]) else None
  }

  /** Built-in constants, with their values. */
  const BuiltinConst: seq<(string, nat)> := [("__ARMA__", 1), ("__ARMA3__", 1)]

  /** Built-in macros computed from the invocation site. */
  const BuiltinGen: seq<string> := ["__COUNTER__", "__COUNTER_RESET__", "__FILE__", "__LINE__"]

  /** Built-in macros that are deliberately not supported. */
  const BuiltinProtest: seq<string> := [
    "__DATE_ARR__", "__DATE_STR__", "__DATE_STR_ISO8601__", "__TIME__",
    "__TIME_UTC__", "__TIMESTAMP_UTC__", "__RAND_INT*__", "__RAND_UINT*__",
    "__GAME_VER__", "__GAME_VER_MAJ__", "__GAME_VER_MIN__", "__GAME_BUILD__",
    "__A3_DIAG__", "__A3_DEBUG__", "__EXEC", "__EVAL"
  ]

  /** The 22 reserved names written out once more, as one set. */
  const ReservedNames: set<string> := {
    "__ARMA__", "__ARMA3__",
    "__COUNTER__", "__COUNTER_RESET__", "__FILE__", "__LINE__",
    "__DATE_ARR__", "__DATE_STR__", "__DATE_STR_ISO8601__", "__TIME__",
    "__TIME_UTC__", "__TIMESTAMP_UTC__", "__RAND_INT*__", "__RAND_UINT*__",
    "__GAME_VER__", "__GAME_VER_MAJ__", "__GAME_VER_MIN__", "__GAME_BUILD__",
    "__A3_DIAG__", "__A3_DEBUG__", "__EXEC", "__EVAL"
  }

  predicate IsGenerated(key: string) {
    key in BuiltinGen
  }

  /** Whether `key` is one of the 22 reserved names: constant, generated or
      refused. */
  function IsBuiltin(key: string): (b: bool)
    ensures IsGenerated(key) ==> b
    ensures key in BuiltinProtest ==> b
    ensures b <==> key in ReservedNames
    ensures b ==> |key| >= 6 && key[..2] == "__"
  {
    assert key == "__ARMA__" ==> BuiltinConst[0].0 == key;
    assert key == "__ARMA3__" ==> BuiltinConst[1].0 == key;
    || key in BuiltinGen
    || key in BuiltinProtest
    || exists i :: 0 <= i < |BuiltinConst| && BuiltinConst[i].0 == key
  }

  /** The word that `__FILE__` expands to: the site's path, behind the
      project prefix and a backslash when the file belongs to a project. */
  function FileWord(path: WorkspacePath): (w: string)
    ensures |w| >= |path.path| && w[|w| - |path.path|..] == path.path
    ensures path.prefix.None? ==> w == path.path
    ensures path.prefix.Some? ==>
              |w| == |path.prefix.value| + 1 + |path.path| && w[..|path.prefix.value| + 1] == path.prefix.value + "\\"
  {
    match path.prefix
    case None => path.path
    case Some(prefix) => prefix + "\\" + path.path
  }

  /** What `__FILE__` expands to: a quote, the file word and a quote, all
      placed at the invoking token's position. */
  function FileTokens(key: Token, site: Position): seq<Token> {
    [Token(DoubleQuote, key.position), Token(Word(FileWord(site.path)), key.position),
     Token(DoubleQuote, key.position)]
  }

  /** `key` lies on one of the lines of `def`'s own definition, in the same file. */
  predicate UsedInsideOwnDefinition(key: Token, def: Definition) {
    && def.Function?
    && key.position.path == def.func.position.path
    && def.func.position.start.line <= key.position.start.line <= def.func.position.end.line
  }

  /** The recursion guard: a function-like macro looked up from within the
      lines of its own definition is treated as undefined. */
  function RecursionGuard(key: Token, found: Option<Binding>): (r: Option<Binding>)
    ensures r.None? <==> found.None? || UsedInsideOwnDefinition(key, found.value.1)
    ensures r.Some? ==> r == found
  {
    if found.Some? && found.value.1.Function? then
      var def := found.value.1.func;
      if key.position.path != def.position.path then found
      else if key.position.start.line < def.position.start.line then found
      else if key.position.start.line > def.position.end.line then found
      else None
    else found
  }

  /** A token of a macro body, lexed within the definition's own lines,
      that names that very macro: the table finds the definition, and the
      recursion guard refuses it. */
  lemma SelfReferenceIsBlocked(d: Defines, defined: Token, def: FunctionDefinition, i: nat)
    requires i < |def.body|
    requires d.GetReadonly(TokenText(def.body[i])) == Some((defined, Function(def)))
    requires def.body[i].position.path == def.position.path
    requires def.position.start.line <= def.body[i].position.start.line <= def.position.end.line
    ensures RecursionGuard(def.body[i], d.GetReadonly(TokenText(def.body[i]))) == None
  {
  }

  /** A candidate name with its distance to the search string. */
  type Scored = (string, nat)

  ghost predicate SortedByDistance(s: seq<Scored>) {
    forall i, j :: 0 <= i < j < |s| ==> s[i].1 <= s[j].1
  }

  ghost predicate DistinctNames(s: seq<Scored>) {
    forall i, j :: 0 <= i < j < |s| ==> s[i].0 != s[j].0
  }

  /** `names` is a valid answer of the similarity search: at most three
      distinct candidates, each within distance 3 of `search`, closest first,
      and no qualifying candidate left out that is strictly closer than one
      kept, nor left out while fewer than three are kept. Among equal
      distances the order is not specified. */
  ghost predicate IsRanking(names: seq<string>, candidates: set<string>, search: string) {
    && |names| <= 3
    && (forall i :: 0 <= i < |names| ==> names[i] in candidates && Levenshtein(names[i], search) <= 3)
    && (forall i, j :: 0 <= i < j < |names| ==> names[i] != names[j])
    && (forall i, j :: 0 <= i < j < |names| ==> Levenshtein(names[i], search) <= Levenshtein(names[j], search))
    && (forall k :: k in candidates && k !in names && Levenshtein(k, search) <= 3 ==>
          |names| == 3 && forall i :: 0 <= i < |names| ==> Levenshtein(names[i], search) <= Levenshtein(k, search))
  }

  /** An exact match, when it is a candidate, is always the first suggestion. */
  lemma ExactMatchRanksFirst(names: seq<string>, candidates: set<string>, search: string)
    requires IsRanking(names, candidates, search)
    requires search in candidates
    ensures |names| > 0 && names[0] == search
  {
    LevenshteinZeroIffEqual(search, search);
    if search !in names {
      LevenshteinZeroIffEqual(names[0], search);
      assert false;
    }
    var j :| 0 <= j < |names| && names[j] == search;
    LevenshteinZeroIffEqual(names[0], search);
  }

  /** A candidate whose length differs from the search string's by more than
      3 is never suggested. */
  lemma FarLengthsNeverSuggested(names: seq<string>, candidates: set<string>, search: string, k: string)
    requires IsRanking(names, candidates, search)
    requires |k| > |search| + 3 || |search| > |k| + 3
    ensures k !in names
  {
    LevenshteinAtLeastLengthGap(k, search);
  }

  /** Stable insertion of `x` into `s`: after every entry that is not
      farther than `x`, before every entry that is. */
  method InsertByDistance(s: seq<Scored>, x: Scored) returns (r: seq<Scored>, j: nat)
    requires SortedByDistance(s)
    ensures j <= |s| && r == s[..j] + [x] + s[j..]
    ensures forall i :: 0 <= i < j ==> s[i].1 <= x.1
    ensures forall i :: j <= i < |s| ==> s[i].1 > x.1
    ensures SortedByDistance(r)
  {
    j := |s|;
    while j > 0 && s[j - 1].1 > x.1
      invariant 0 <= j <= |s|
      invariant forall i :: j <= i < |s| ==> s[i].1 > x.1
      decreases j
    {
      j := j - 1;
    }
    r := s[..j] + [x] + s[j..];
  }

  /** Inserting `x` at `j` adds exactly one `x` to the multiset. */
  lemma InsertedMultiset(r: seq<Scored>, x: Scored, j: nat)
    requires j <= |r|
    ensures multiset(r[..j] + [x] + r[j..]) == multiset(r) + multiset{x}
  {
    assert r == r[..j] + r[j..];
  }

  /** Inserting a name that `r` does not hold keeps the names distinct. */
  lemma InsertedDistinct(r: seq<Scored>, x: Scored, j: nat)
    requires j <= |r| && DistinctNames(r)
    requires forall k :: 0 <= k < |r| ==> r[k].0 != x.0
    ensures DistinctNames(r[..j] + [x] + r[j..])
  {
    var t := r[..j] + [x] + r[j..];
    forall a, b | 0 <= a < b < |t| ensures t[a].0 != t[b].0 {
      if a < j && b > j {
        assert t[a] == r[a] && t[b] == r[b - 1];
      } else if a > j {
        assert t[a] == r[a - 1] && t[b] == r[b - 1];
      }
    }
  }

  /** An entry not yet sorted has a name none of the sorted entries has. */
  lemma UnsortedNameIsFresh(s: seq<Scored>, r: seq<Scored>, i: nat)
    requires i < |s| && DistinctNames(s)
    requires multiset(r) == multiset(s[..i])
    ensures forall k :: 0 <= k < |r| ==> r[k].0 != s[i].0
  {
    forall k | 0 <= k < |r| ensures r[k].0 != s[i].0 {
      assert r[k] in multiset(s[..i]);
      var m :| 0 <= m < i && s[m] == r[k];
    }
  }

  /** `sort_by_key` on the distance: a stable sort. */
  method SortByDistance(s: seq<Scored>) returns (r: seq<Scored>)
    ensures SortedByDistance(r)
    ensures multiset(r) == multiset(s)
    ensures DistinctNames(s) ==> DistinctNames(r)
  {
    r := [];
    var i := 0;
    while i < |s|
      invariant 0 <= i <= |s|
      invariant SortedByDistance(r)
      invariant multiset(r) == multiset(s[..i])
      invariant DistinctNames(s) ==> DistinctNames(r)
    {
      var r', j := InsertByDistance(r, s[i]);
      InsertedMultiset(r, s[i], j);
      if DistinctNames(s) {
        UnsortedNameIsFresh(s, r, i);
        InsertedDistinct(r, s[i], j);
      }
      assert s[..i + 1] == s[..i] + [s[i]];
      r := r';
      i := i + 1;
    }
    assert s[..i] == s;
  }

  /** Every candidate paired with its distance to `search`, once each, in
      the order the map yields them (unspecified). */
  method ScoreCandidates(candidates: set<string>, search: string) returns (scored: seq<Scored>)
    ensures forall e :: e in scored <==> e.0 in candidates && e.1 == Levenshtein(e.0, search)
    ensures DistinctNames(scored)
  {
    var todo := candidates;
    scored := [];
    while todo != {}
      invariant todo <= candidates
      invariant forall e :: e in scored <==> e.0 in candidates && e.0 !in todo && e.1 == Levenshtein(e.0, search)
      invariant DistinctNames(scored)
      decreases |todo|
    {
      var k :| k in todo;
      scored := scored + [(k, Levenshtein(k, search))];
      todo := todo - {k};
    }
  }

  /** The entries within distance 3, in their original order. */
  function Close(s: seq<Scored>): (c: seq<Scored>)
    ensures |c| <= |s|
  {
    if |s| == 0 then []
    else Close(s[..|s| - 1]) + (if s[|s| - 1].1 <= 3 then [s[|s| - 1]] else [])
  }

  /** The close entries are exactly the entries of `s` within distance 3. */
  lemma {:induction false} CloseMembers(s: seq<Scored>)
    ensures forall e :: e in Close(s) <==> e in s && e.1 <= 3
  {
    if |s| > 0 {
      CloseMembers(s[..|s| - 1]);
      assert s == s[..|s| - 1] + [s[|s| - 1]];
    }
  }

  /** Keeping a part of a sorted sequence, in order, keeps it sorted. */
  lemma {:induction false} CloseSorted(s: seq<Scored>)
    requires SortedByDistance(s)
    ensures SortedByDistance(Close(s))
  {
    if |s| > 0 {
      var init := s[..|s| - 1];
      CloseSorted(init);
      CloseMembers(init);
      forall e | e in Close(init) ensures e.1 <= s[|s| - 1].1 {
        var m :| 0 <= m < |init| && init[m] == e;
      }
    }
  }

  /** Keeping a part of a sequence with distinct names keeps them distinct. */
  lemma {:induction false} CloseDistinct(s: seq<Scored>)
    requires DistinctNames(s)
    ensures DistinctNames(Close(s))
  {
    if |s| > 0 {
      var init := s[..|s| - 1];
      CloseDistinct(init);
      CloseMembers(init);
      forall e | e in Close(init) ensures e.0 != s[|s| - 1].0 {
        var m :| 0 <= m < |init| && init[m] == e;
      }
    }
  }

  /** `retain(|s| s.1 <= 3)`: keeps the entries within distance 3, in order. */
  method RetainClose(sorted: seq<Scored>) returns (kept: seq<Scored>)
    requires SortedByDistance(sorted) && DistinctNames(sorted)
    ensures kept == Close(sorted)
    ensures forall e :: e in kept <==> e in sorted && e.1 <= 3
    ensures SortedByDistance(kept) && DistinctNames(kept)
  {
    kept := [];
    for i := 0 to |sorted|
      invariant kept == Close(sorted[..i])
    {
      assert sorted[..i + 1][..i] == sorted[..i];
      if sorted[i].1 <= 3 {
        kept := kept + [sorted[i]];
      }
    }
    assert sorted[..|sorted|] == sorted;
    CloseMembers(sorted);
    CloseSorted(sorted);
    CloseDistinct(sorted);
  }

  /** The names of the scored entries, in order. */
  function NamesOf(s: seq<Scored>): (names: seq<string>)
    ensures |names| == |s| && forall i :: 0 <= i < |s| ==> names[i] == s[i].0
  {
    seq(|s|, i requires 0 <= i < |s| => s[i].0)
  }

  /** The first three of the sorted close candidates form a ranking. */
  lemma FirstThreeAreRanking(kept: seq<Scored>, candidates: set<string>, search: string)
    requires forall e :: e in kept <==> e.0 in candidates && e.1 == Levenshtein(e.0, search) && e.1 <= 3
    requires SortedByDistance(kept) && DistinctNames(kept)
    ensures IsRanking(NamesOf(if |kept| > 3 then kept[..3] else kept), candidates, search)
  {
    var top := if |kept| > 3 then kept[..3] else kept;
    var names := NamesOf(top);
    forall i | 0 <= i < |names| ensures names[i] in candidates && Levenshtein(names[i], search) <= 3 {
      assert top[i] in kept;
    }
    forall i | 0 <= i < |names| ensures Levenshtein(names[i], search) == top[i].1 {
      assert top[i] in kept;
    }
    forall k | k in candidates && k !in names && Levenshtein(k, search) <= 3
      ensures |names| == 3 && forall i :: 0 <= i < |names| ==> Levenshtein(names[i], search) <= Levenshtein(k, search)
    {
      LeftOutComesLater(kept, top, names, (k, Levenshtein(k, search)));
    }
  }

  /** A close entry whose name was not kept among the first three lies after
      them, so three were kept and none of them is farther. */
  lemma LeftOutComesLater(kept: seq<Scored>, top: seq<Scored>, names: seq<string>, e: Scored)
    requires SortedByDistance(kept)
    requires top == if |kept| > 3 then kept[..3] else kept
    requires |names| == |top| && forall i :: 0 <= i < |top| ==> names[i] == top[i].0
    requires e in kept && e.0 !in names
    ensures |top| == 3 && forall i :: 0 <= i < |top| ==> top[i].1 <= e.1
  {
    var p :| 0 <= p < |kept| && kept[p] == e;
    assert forall q :: 0 <= q < |top| ==> top[q].0 != e.0;
    assert p >= |top|;
  }

  /** The shared ranking of `similar_function` and `similar_values`: score
      each candidate, sort by distance, keep distance at most 3, keep the
      first three. */
  method RankBySimilarity(candidates: set<string>, search: string) returns (names: seq<string>)
    ensures IsRanking(names, candidates, search)
  {
    var scored := ScoreCandidates(candidates, search);
    var sorted := SortByDistance(scored);
    forall e ensures e in sorted <==> e in scored {
      assert e in sorted <==> e in multiset(sorted);
      assert e in scored <==> e in multiset(scored);
    }
    var kept := RetainClose(sorted);
    var top := if |kept| > 3 then kept[..3] else kept;
    FirstThreeAreRanking(kept, candidates, search);
    names := NamesOf(top);
  }

  /** The scoped macro table. */
  class Defines {
    var global: Scope
    var stack: seq<(string, Scope)>
    var counter: u16

    /** An empty table (`Default`). */
    constructor ()
      ensures global == map[] && stack == [] && counter == 0
    {
      global := map[];
      stack := [];
      counter := 0;
    }

    /** Whether `key` is defined where it is looked up: always for the
        generated built-ins; never for the name of the macro whose call scope
        is on top (so a macro cannot see itself); otherwise exactly when
        `GetReadonly` finds a binding. */
    function ContainsKey(key: string): (b: bool)
      reads this
      ensures IsGenerated(key) ==> b
      ensures !IsGenerated(key) && |stack| > 0 && stack[|stack| - 1].0 == key ==> !b
      ensures !IsGenerated(key) && (|stack| == 0 || stack[|stack| - 1].0 != key) ==>
                (b <==> GetReadonly(key).Some?)
    {
      if IsGenerated(key) then true
      else if |stack| > 0 && stack[|stack| - 1].0 == key then false
      else if |stack| > 0 && key in stack[|stack| - 1].1 then true
      else key in global
    }

    /** The binding of `key`: the top call scope's if it has one, else the
        global one. Scopes below the top are never consulted. */
    function GetReadonly(key: string): (r: Option<Binding>)
      reads this
      ensures |stack| > 0 && key in stack[|stack| - 1].1 ==> r == Some(stack[|stack| - 1].1[key])
      ensures (|stack| == 0 || key !in stack[|stack| - 1].1) ==> r == Lookup(global, key)
    {
      if |stack| > 0 && key in stack[|stack| - 1].1 then Some(stack[|stack| - 1].1[key])
      else Lookup(global, key)
    }

    /** Resolution during expansion. With a site, a generated built-in is
        computed from it (`__COUNTER__` and `__COUNTER_RESET__` also step or
        reset the counter); otherwise the stored binding is returned unless
        the recursion guard refuses it. Nothing but the counter changes. */
    method GetWithGen(key: Token, site: Option<Position>) returns (r: Option<Binding>)
      requires site.Some? && TokenText(key) == "__COUNTER__" ==> counter < 0xFFFF
      modifies this`counter
      ensures site.Some? && TokenText(key) == "__COUNTER__" ==>
                && r == Some((key, Value([Token(Digit(old(counter) as nat), key.position)])))
                && counter == old(counter) + 1
      ensures site.Some? && TokenText(key) == "__COUNTER_RESET__" ==>
                r == Some((key, Void)) && counter == 0
      ensures site.Some? && TokenText(key) == "__FILE__" ==>
                r == Some((key, Value(FileTokens(key, site.value)))) && counter == old(counter)
      ensures site.Some? && TokenText(key) == "__LINE__" ==>
                && r == Some((key, Value([Token(Digit(site.value.start.line), key.position)])))
                && counter == old(counter)
      ensures site.None? || !IsGenerated(TokenText(key)) ==>
                r == RecursionGuard(key, GetReadonly(TokenText(key))) && counter == old(counter)
    {
      var ident := TokenText(key);
      if site.Some? && ident in BuiltinGen {
        if ident == "__COUNTER__" {
          var value := counter;
          counter := counter + 1;
          return Some((key, Value([Token(Digit(value as nat), key.position)])));
        } else if ident == "__COUNTER_RESET__" {
          counter := 0;
          return Some((key, Void));
        } else if ident == "__FILE__" {
          return Some((key, Value(FileTokens(key, site.value))));
        } else {
          return Some((key, Value([Token(Digit(site.value.start.line), key.position)])));
        }
      }
      r := RecursionGuard(key, GetReadonly(ident));
    }

    /** Binds `key` in the top call scope, or globally when no call is in
        progress, and returns what that scope bound it to before. */
    method Insert(key: string, value: Binding) returns (previous: Option<Binding>)
      modifies this`global, this`stack
      ensures |old(stack)| > 0 ==>
                && previous == Lookup(old(stack)[|old(stack)| - 1].1, key)
                && stack == old(stack)[..|old(stack)| - 1]
                            + [(old(stack)[|old(stack)| - 1].0, old(stack)[|old(stack)| - 1].1[key := value])]
                && global == old(global)
      ensures |old(stack)| == 0 ==>
                previous == Lookup(old(global), key) && global == old(global)[key := value] && stack == []
      ensures GetReadonly(key) == Some(value)
      ensures !IsGenerated(key) ==> (ContainsKey(key) <==> |stack| == 0 || stack[|stack| - 1].0 != key)
    {
      if |stack| > 0 {
        var (name, scope) := stack[|stack| - 1];
        previous := Lookup(scope, key);
        stack := stack[..|stack| - 1] + [(name, scope[key := value])];
      } else {
        previous := Lookup(global, key);
        global := global[key := value];
      }
    }

    /** Unbinds `key` in the top call scope, or globally when no call is in
        progress, and returns what that scope bound it to. A key removed from
        a call scope is then found in the global scope again. */
    method Remove(key: string) returns (previous: Option<Binding>)
      modifies this`global, this`stack
      ensures |old(stack)| > 0 ==>
                && previous == Lookup(old(stack)[|old(stack)| - 1].1, key)
                && stack == old(stack)[..|old(stack)| - 1]
                            + [(old(stack)[|old(stack)| - 1].0, old(stack)[|old(stack)| - 1].1 - {key})]
                && global == old(global)
      ensures |old(stack)| == 0 ==>
                previous == Lookup(old(global), key) && global == old(global) - {key} && stack == []
      ensures GetReadonly(key) == if |stack| > 0 then Lookup(global, key) else None
    {
      if |stack| > 0 {
        var (name, scope) := stack[|stack| - 1];
        previous := Lookup(scope, key);
        stack := stack[..|stack| - 1] + [(name, scope - {key})];
      } else {
        previous := Lookup(global, key);
        global := global - {key};
      }
    }

    /** Opens the call scope of macro `name` with its argument bindings. */
    method Push(name: string, args: Scope)
      modifies this`stack
      ensures stack == old(stack) + [(name, args)]
      ensures forall k :: k in args ==> GetReadonly(k) == Some(args[k])
      ensures !IsGenerated(name) ==> !ContainsKey(name)
    {
      stack := stack + [(name, args)];
    }

    /** Closes the innermost call scope; does nothing when none is open. */
    method Pop()
      modifies this`stack
      ensures stack == if |old(stack)| == 0 then [] else old(stack)[..|old(stack)| - 1]
    {
      if |stack| > 0 {
        stack := stack[..|stack| - 1];
      }
    }

    /** The global names bound to a function-like macro, with exactly
        `args` parameters when `args` is given. */
    function FunctionNames(args: Option<nat>): (names: set<string>)
      reads this
      ensures forall k :: k in names ==>
                k in global && global[k].1.Function? && (args.Some? ==> |global[k].1.func.args| == args.value)
    {
      set k | k in global && global[k].1.Function? && (args.None? || |global[k].1.func.args| == args.value)
    }

    /** The global names bound to an object-like macro with a value. */
    function ValueNames(): (names: set<string>)
      reads this
      ensures forall k :: k in names ==> k in global && global[k].1.Value?
    {
      set k | k in global && global[k].1.Value?
    }

    /** Up to three global function-like macros whose names are close to
        `search`, closest first. Call scopes are not searched. */
    method SimilarFunction(search: string, args: Option<nat>) returns (names: seq<string>)
      ensures |names| <= 3
      ensures forall i :: 0 <= i < |names| ==>
                && names[i] in global && global[names[i]].1.Function?
                && (args.Some? ==> |global[names[i]].1.func.args| == args.value)
      ensures IsRanking(names, FunctionNames(args), search)
    {
      names := RankBySimilarity(FunctionNames(args), search);
    }

    /** Up to three global object-like macros whose names are close to
        `search`, closest first. Call scopes are not searched. */
    method SimilarValues(search: string) returns (names: seq<string>)
      ensures |names| <= 3
      ensures forall i :: 0 <= i < |names| ==> names[i] in global && global[names[i]].1.Value?
      ensures IsRanking(names, ValueNames(), search)
    {
      names := RankBySimilarity(ValueNames(), search);
    }
  }

  /** Scopes below the top are never consulted: two tables that agree on the
      global scope and on the top call scope resolve every name alike. */
  lemma LowerScopesNotConsulted(a: Defines, b: Defines, key: string)
    requires a.global == b.global
    requires |a.stack| == 0 <==> |b.stack| == 0
    requires |a.stack| > 0 ==> a.stack[|a.stack| - 1] == b.stack[|b.stack| - 1]
    ensures a.GetReadonly(key) == b.GetReadonly(key)
    ensures a.ContainsKey(key) == b.ContainsKey(key)
  {
  }

  /** Opening a call scope and closing it again leaves the table as it was. */
  method PushThenPop(d: Defines, name: string, args: Scope)
    modifies d
    ensures d.stack == old(d.stack) && d.global == old(d.global) && d.counter == old(d.counter)
  {
    d.Push(name, args);
    d.Pop();
    assert old(d.stack) + [(name, args)] == d.stack + [(name, args)];
    assert d.stack == (old(d.stack) + [(name, args)])[..|old(d.stack)|];
  }

  /** Binding a name the current scope does not bind and then unbinding it
      leaves the table as it was, and returns that binding. */
  method InsertThenRemove(d: Defines, key: string, value: Binding) returns (removed: Option<Binding>)
    requires |d.stack| > 0 ==> key !in d.stack[|d.stack| - 1].1
    requires |d.stack| == 0 ==> key !in d.global
    modifies d
    ensures removed == Some(value)
    ensures d.stack == old(d.stack) && d.global == old(d.global) && d.counter == old(d.counter)
  {
    var _ := d.Insert(key, value);
    removed := d.Remove(key);
    if |d.stack| > 0 {
      assert d.stack[|d.stack| - 1].1 == old(d.stack)[|old(d.stack)| - 1].1;
      assert d.stack[..|d.stack| - 1] == old(d.stack)[..|old(d.stack)| - 1];
      assert d.stack == old(d.stack)[..|old(d.stack)| - 1] + [old(d.stack)[|old(d.stack)| - 1]];
    }
  }

  /** `__COUNTER__` yields 0, 1, 2 after a reset, and 0 again after the next
      reset. */
  method CounterSequence(d: Defines, counterKey: Token, resetKey: Token, site: Position)
    returns (values: seq<Option<Binding>>)
    requires TokenText(counterKey) == "__COUNTER__" && TokenText(resetKey) == "__COUNTER_RESET__"
    modifies d
    ensures |values| == 4
    ensures forall i :: 0 <= i < 4 ==>
              values[i] == Some((counterKey, Value([Token(Digit([0, 1, 2, 0][i]), counterKey.position)])))
  {
    var _ := d.GetWithGen(resetKey, Some(site));
    var first := d.GetWithGen(counterKey, Some(site));
    var second := d.GetWithGen(counterKey, Some(site));
    var third := d.GetWithGen(counterKey, Some(site));
    var _ := d.GetWithGen(resetKey, Some(site));
    var fourth := d.GetWithGen(counterKey, Some(site));
    values := [first, second, third, fourth];
  }
}
