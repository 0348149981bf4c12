/** Kernel command line rewriting: the check that reports missing arguments, the rewriter that puts
    one argument into a line, and the fold of the second over the report of the first.

    Lines are strings and pass through Python's `split`, `join` and `strip` at every step, so the
    facts about token lists are carried to strings by the round trips `SplitJoin` and `StripSpaced`. */
module KernelCmdline {
  import opened Wrappers

  // ----- split, join and strip -----

  /** The characters Python's `str.split()` and `str.strip()` treat as white space. */
  predicate IsSpace(c: char) {
    || '\t' <= c <= '\r' || '\U{1C}' <= c <= '\U{20}' || c == '\U{85}' || c == '\U{A0}' || c == '\U{1680}'
    || '\U{2000}' <= c <= '\U{200A}' || c == '\U{2028}' || c == '\U{2029}' || c == '\U{202F}'
    || c == '\U{205F}' || c == '\U{3000}'
  }

  predicate IsToken(t: string) {
    |t| > 0 && forall i :: 0 <= i < |t| ==> !IsSpace(t[i])
  }

  predicate AllTokens(ts: seq<string>) {
    forall i :: 0 <= i < |ts| ==> IsToken(ts[i])
  }

  function WordLength(s: string): (n: nat)
    ensures n <= |s|
    ensures forall i :: 0 <= i < n ==> !IsSpace(s[i])
    ensures n < |s| ==> IsSpace(s[n])
  {
    if s == [] || IsSpace(s[0]) then 0 else 1 + WordLength(s[1..])
  }

  function Split(s: string): (ts: seq<string>)
    ensures AllTokens(ts)
    decreases |s|
  {
    if s == [] then []
    else if IsSpace(s[0]) then Split(s[1..])
    else [s[..WordLength(s)]] + Split(s[WordLength(s)..])
  }

  function Join(ts: seq<string>): string {
    if |ts| == 0 then ""
    else if |ts| == 1 then ts[0]
    else ts[0] + " " + Join(ts[1..])
  }

  function Strip(s: string): string
    decreases |s|
  {
    if s == [] then []
    else if IsSpace(s[0]) then Strip(s[1..])
    else if IsSpace(s[|s| - 1]) then Strip(s[..|s| - 1])
    else s
  }

  /** What `line += "%s " % t` builds up. */
  function Spaced(ts: seq<string>): string {
    if |ts| == 0 then "" else Spaced(ts[..|ts| - 1]) + (ts[|ts| - 1] + " ")
  }

  lemma SplitWord(t: string, rest: string)
    requires IsToken(t) && (rest == [] || IsSpace(rest[0]))
    ensures Split(t + rest) == [t] + Split(rest)
  {
    var s := t + rest;
    assert forall i :: 0 <= i < |t| ==> s[i] == t[i];
    assert rest != [] ==> s[|t|] == rest[0];
    assert WordLength(s) == |t|;
    assert s[..|t|] == t && s[|t|..] == rest;
  }

  lemma SplitSpace(s: string)
    ensures Split(" " + s) == Split(s) && Split("") == []
  {
    assert (" " + s)[1..] == s;
  }

  lemma {:induction false} SplitJoin(ts: seq<string>)
    requires AllTokens(ts)
    ensures Split(Join(ts)) == ts
  {
    hide IsToken, Split;
    if |ts| == 0 {
      SplitSpace("");
    } else if |ts| == 1 {
      SplitSpace("");
      SplitWord(ts[0], "");
      assert ts[0] + "" == ts[0];
    } else {
      SplitJoin(ts[1..]);
      SplitSpace(Join(ts[1..]));
      SplitWord(ts[0], " " + Join(ts[1..]));
      Assoc(ts[0], " ", Join(ts[1..]));
      assert [ts[0]] + ts[1..] == ts;
    }
  }

  lemma Assoc<T>(a: seq<T>, b: seq<T>, c: seq<T>)
    ensures a + b + c == a + (b + c)
  {
  }

  lemma {:induction false} JoinSnoc(ts: seq<string>, t: string)
    ensures Join(ts + [t]) == if |ts| == 0 then t else Join(ts) + (" " + t)
  {
    if |ts| > 1 {
      JoinSnoc(ts[1..], t);
      assert (ts + [t])[1..] == ts[1..] + [t];
    } else if |ts| == 1 {
      assert (ts + [t])[1..] == [t];
    }
  }

  lemma {:induction false} SpacedIsJoin(ts: seq<string>)
    ensures |ts| > 0 ==> Spaced(ts) == Join(ts) + " "
  {
    if |ts| == 1 {
      assert ts[..0] == [];
    } else if |ts| > 1 {
      var front, last := ts[..|ts| - 1], ts[|ts| - 1];
      SpacedIsJoin(front);
      JoinSnoc(front, last);
      assert ts == front + [last];
      hide Join;
      Assoc(Join(front), " ", last + " ");
      Assoc(" ", last, " ");
      Assoc(Join(front), " " + last, " ");
    }
  }

  lemma {:induction false} JoinEnds(ts: seq<string>)
    requires AllTokens(ts) && |ts| > 0
    ensures var s := Join(ts); |s| > 0 && !IsSpace(s[0]) && !IsSpace(s[|s| - 1])
  {
    if |ts| > 1 {
      JoinEnds(ts[1..]);
    }
  }

  /** Stripping the built-up report gives the plain join of its tokens. */
  lemma StripSpaced(ts: seq<string>)
    requires AllTokens(ts)
    ensures Strip(Spaced(ts)) == Join(ts)
  {
    if |ts| > 0 {
      SpacedIsJoin(ts);
      JoinEnds(ts);
      var s := Spaced(ts);
      assert s[..|s| - 1] == Join(ts);
      assert !IsSpace(s[0]) && IsSpace(s[|s| - 1]);
    }
  }

  // ----- Keys -----

  /** `t.split("=")[0]` */
  function KeyOf(t: string): string {
    if t == [] || t[0] == '=' then [] else [t[0]] + KeyOf(t[1..])
  }

  /** `t.startswith(key + "=")` */
  predicate Sets(t: string, key: string) {
    key + "=" <= t
  }

  lemma {:induction false} KeyFacts(t: string)
    ensures '=' !in KeyOf(t) && KeyOf(t) <= t
    ensures '=' in t ==> Sets(t, KeyOf(t))
  {
    if t != [] && t[0] != '=' {
      KeyFacts(t[1..]);
      assert t == [t[0]] + t[1..];
    }
  }

  /** A token sets at most one key: the one `KeyOf` finds. */
  lemma {:induction false} SetsKey(t: string, key: string)
    requires '=' !in key && Sets(t, key)
    ensures KeyOf(t) == key && '=' in t
  {
    assert t[|key|] == '=';
    if key != [] {
      assert t[0] == key[0] && key[0] in key;
      assert forall i :: 0 <= i < |key[1..]| ==> key[1..][i] == key[i + 1];
      assert '=' !in key[1..];
      SetsKey(t[1..], key[1..]);
    }
  }

  predicate KeyValue(ts: seq<string>) {
    forall t :: t in ts ==> '=' in t
  }

  predicate DistinctKeys(ts: seq<string>) {
    forall i, j :: 0 <= i < j < |ts| ==> KeyOf(ts[i]) != KeyOf(ts[j])
  }

  function Keys(ts: seq<string>): set<string> {
    set t | t in ts :: KeyOf(t)
  }

  /** The tokens that set none of `keys`, in their order. */
  function Others(ts: seq<string>, keys: set<string>): seq<string> {
    if |ts| == 0 then []
    else
      var front := Others(ts[..|ts| - 1], keys);
      if exists k :: k in keys && Sets(ts[|ts| - 1], k) then front else front + [ts[|ts| - 1]]
  }

  function Count(ts: seq<string>, key: string): nat {
    if |ts| == 0 then 0
    else Count(ts[..|ts| - 1], key) + if Sets(ts[|ts| - 1], key) then 1 else 0
  }

  // ----- The check -----

  function Missing(args: seq<string>, have: seq<string>): seq<string> {
    if |args| == 0 then []
    else
      var front := Missing(args[..|args| - 1], have);
      if args[|args| - 1] in have then front else front + [args[|args| - 1]]
  }

  function Present(args: seq<string>, have: seq<string>): seq<string> {
    if |args| == 0 then []
    else
      var front := Present(args[..|args| - 1], have);
      if args[|args| - 1] in have then front + [args[|args| - 1]] else front
  }

  lemma {:induction false} MissingMembers(args: seq<string>, have: seq<string>)
    ensures forall t :: t in Missing(args, have) <==> t in args && t !in have
    ensures |Missing(args, have)| <= |args|
    ensures AllTokens(args) ==> AllTokens(Missing(args, have))
    ensures DistinctKeys(args) ==> DistinctKeys(Missing(args, have))
  {
    if |args| > 0 {
      var front, last := args[..|args| - 1], args[|args| - 1];
      assert args == front + [last];
      MissingMembers(front, have);
      var m := Missing(front, have);
      if DistinctKeys(args) {
        forall i | 0 <= i < |m| ensures KeyOf(m[i]) != KeyOf(last) {
          assert m[i] in m;
          var j :| 0 <= j < |front| && front[j] == m[i];
          assert args[j] == front[j];
        }
      }
    }
  }

  lemma {:induction false} PresentTokens(args: seq<string>, have: seq<string>)
    requires AllTokens(args)
    ensures AllTokens(Present(args, have))
    ensures forall t :: t in Present(args, have) <==> t in args && t in have
  {
    if |args| > 0 {
      assert args == args[..|args| - 1] + [args[|args| - 1]];
      PresentTokens(args[..|args| - 1], have);
    }
  }

  /** One token further, the report grows by that token or not at all. */
  lemma SpacedStep(args: seq<string>, have: seq<string>, i: nat)
    requires i < |args|
    ensures Spaced(Missing(args[..i + 1], have)) ==
            Spaced(Missing(args[..i], have)) + if args[i] in have then "" else args[i] + " "
    ensures Spaced(Present(args[..i + 1], have)) ==
            Spaced(Present(args[..i], have)) + if args[i] in have then args[i] + " " else ""
  {
    assert args[..i + 1][..i] == args[..i];
    var m, p := Missing(args[..i], have), Present(args[..i], have);
    assert (m + [args[i]])[..|m|] == m && (p + [args[i]])[..|p|] == p;
  }

  lemma NothingSpaced(args: seq<string>, removeArgs: seq<string>, have: seq<string>)
    ensures Spaced(Missing(args[..0], have)) == "" && Spaced(Present(removeArgs[..0], have)) == ""
    ensures Strip("") == ""
  {
  }

  /** `check_kernel_cmdline`; `proc` is the output of reading the running command line, `None` when
      the command failed. A failed read reports nothing missing and nothing to remove. */
  method CheckKernelCmdline(proc: Option<string>, args: string, removeArgs: string)
    returns (req: string, reqRemove: string)
    ensures proc.None? ==> req == "" && reqRemove == ""
    ensures proc.Some? ==> req == Join(Missing(Split(args), Split(proc.value)))
    ensures proc.Some? ==> Split(req) == Missing(Split(args), Split(proc.value))
    ensures proc.Some? ==> reqRemove == Join(Present(Split(removeArgs), Split(proc.value)))
  {
    hide Split, Join, Strip, IsToken, Missing, Present, Spaced;
    req, reqRemove := "", "";
    NothingSpaced(Split(args), Split(removeArgs), if proc.Some? then Split(proc.value) else []);
    if proc.Some? {
      var have := Split(proc.value);
      var wanted := Split(args);
      for i := 0 to |wanted|
        invariant req == Spaced(Missing(wanted[..i], have))
      {
        SpacedStep(wanted, have, i);
        if wanted[i] !in have {
          req := req + (wanted[i] + " ");
        }
      }
      assert wanted[..|wanted|] == wanted;
      MissingMembers(wanted, have);
      StripSpaced(Missing(wanted, have));
      SplitJoin(Missing(wanted, have));
      var unwanted := Split(removeArgs);
      for i := 0 to |unwanted|
        invariant reqRemove == Spaced(Present(unwanted[..i], have))
      {
        SpacedStep(unwanted, have, i);
        if unwanted[i] in have {
          reqRemove := reqRemove + (unwanted[i] + " ");
        }
      }
      assert unwanted[..|unwanted|] == unwanted;
      PresentTokens(unwanted, have);
      StripSpaced(Present(unwanted, have));
    }
    req, reqRemove := Strip(req), Strip(reqRemove);
  }

  // ----- The rewriter -----

  /** Index of the first token that sets `key`, or `|ts|`. */
  function FirstSetting(ts: seq<string>, key: string): (i: nat)
    ensures i <= |ts|
    ensures forall j :: 0 <= j < i ==> !Sets(ts[j], key)
    ensures i < |ts| ==> Sets(ts[i], key)
  {
    if |ts| == 0 || Sets(ts[0], key) then 0 else 1 + FirstSetting(ts[1..], key)
  }

  /** The first setting of the key becomes `arg`, later settings go, everything else stays put; a
      line that never sets the key gets `arg` at its end. */
  function Update(ts: seq<string>, arg: string): seq<string> {
    var i := FirstSetting(ts, KeyOf(arg));
    if i == |ts| then ts + [arg]
    else ts[..i] + [arg] + Others(ts[i + 1..], {KeyOf(arg)})
  }

  lemma {:induction false} OthersMembers(ts: seq<string>, keys: set<string>)
    ensures forall t :: t in Others(ts, keys) <==> t in ts && forall k :: k in keys ==> !Sets(t, k)
    ensures AllTokens(ts) ==> AllTokens(Others(ts, keys))
  {
    if |ts| > 0 {
      assert ts == ts[..|ts| - 1] + [ts[|ts| - 1]];
      OthersMembers(ts[..|ts| - 1], keys);
    }
  }

  lemma UpdateTokens(ts: seq<string>, arg: string)
    requires AllTokens(ts) && IsToken(arg)
    ensures AllTokens(Update(ts, arg))
  {
    var i := FirstSetting(ts, KeyOf(arg));
    if i < |ts| {
      OthersMembers(ts[i + 1..], {KeyOf(arg)});
    }
  }

  /** The value of `updated` after `n` tokens. */
  ghost function UpdatedSoFar(ts: seq<string>, arg: string, n: nat): seq<string>
    requires n <= |ts|
  {
    var i := FirstSetting(ts, KeyOf(arg));
    if n <= i then ts[..n] else ts[..i] + [arg] + Others(ts[i + 1..n], {KeyOf(arg)})
  }

  /** One more token at the end is kept or not. */
  lemma OthersSnoc(ts: seq<string>, t: string, key: string)
    ensures Others(ts + [t], {key}) == if Sets(t, key) then Others(ts, {key}) else Others(ts, {key}) + [t]
  {
    hide Sets;
    assert (ts + [t])[..|ts|] == ts;
    assert key in {key};
  }

  lemma UpdatedStep(ts: seq<string>, arg: string, n: nat)
    requires n < |ts|
    ensures var key := KeyOf(arg);
            var u := UpdatedSoFar(ts, arg, n);
            UpdatedSoFar(ts, arg, n + 1) ==
            if !Sets(ts[n], key) then u + [ts[n]] else if n == FirstSetting(ts, key) then u + [arg] else u
  {
    hide Sets, KeyOf, FirstSetting, Others;
    var key := KeyOf(arg);
    var i := FirstSetting(ts, key);
    if n < i {
      assert ts[..n + 1] == ts[..n] + [ts[n]];
    } else if n == i {
      assert ts[i + 1..n + 1] == [] && ts[..i] + [arg] + [] == ts[..i] + [arg];
      NoOthers({key});
    } else {
      assert ts[i + 1..n + 1] == ts[i + 1..n] + [ts[n]];
      OthersSnoc(ts[i + 1..n], ts[n], key);
      Assoc(ts[..i] + [arg], Others(ts[i + 1..n], {key}), [ts[n]]);
    }
  }

  lemma NoOthers(keys: set<string>)
    ensures Others([], keys) == []
  {
  }

  /** After all tokens, and with the argument appended if nothing was replaced, the line is updated. */
  lemma UpdatedAtLast(ts: seq<string>, arg: string)
    ensures var all := UpdatedSoFar(ts, arg, |ts|);
            Update(ts, arg) == if FirstSetting(ts, KeyOf(arg)) < |ts| then all else all + [arg]
  {
    hide Sets, KeyOf, FirstSetting, Others;
    var i := FirstSetting(ts, KeyOf(arg));
    if i < |ts| {
      assert ts[i + 1..|ts|] == ts[i + 1..];
    } else {
      assert ts[..|ts|] == ts;
    }
  }

  /** `update_or_replace_arg` */
  method UpdateOrReplaceArg(cmdline: string, newArg: string) returns (line: string)
    ensures line == Join(Update(Split(cmdline), newArg))
    ensures IsToken(newArg) ==> Split(line) == Update(Split(cmdline), newArg)
  {
    hide Sets, KeyOf, FirstSetting, Others, Split, Join, IsToken, Update;
    var key := KeyOf(newArg);
    var parts := Split(cmdline);
    var updated := [];
    var replaced := false;
    for n := 0 to |parts|
      invariant replaced <==> FirstSetting(parts, key) < n
      invariant updated == UpdatedSoFar(parts, newArg, n)
    {
      UpdatedStep(parts, newArg, n);
      if Sets(parts[n], key) {
        if !replaced {
          updated := updated + [newArg];
          replaced := true;
        }
      } else {
        updated := updated + [parts[n]];
      }
    }
    UpdatedAtLast(parts, newArg);
    if !replaced {
      updated := updated + [newArg];
    }
    line := Join(updated);
    if IsToken(newArg) {
      UpdateTokens(parts, newArg);
      SplitJoin(updated);
    }
  }

  // ----- The fold -----

  function Fold(ts: seq<string>, reqs: seq<string>): seq<string> {
    if |reqs| == 0 then ts else Update(Fold(ts, reqs[..|reqs| - 1]), reqs[|reqs| - 1])
  }

  /** The loop of `update_kernel_cmdline` over the reported arguments. */
  method FoldArgs(line: string, reqArgs: string) returns (output: string)
    ensures output == if Split(reqArgs) == [] then line else Join(Fold(Split(line), Split(reqArgs)))
    ensures Split(output) == Fold(Split(line), Split(reqArgs))
  {
    hide Split, Join, IsToken, Update, Fold;
    output := line;
    var reqs := Split(reqArgs);
    assert reqs[..0] == [];
    FoldNothing(Split(line));
    for i := 0 to |reqs|
      invariant Split(output) == Fold(Split(line), reqs[..i])
      invariant output == if i == 0 then line else Join(Fold(Split(line), reqs[..i]))
    {
      FoldOneMore(Split(line), reqs, i);
      output := UpdateOrReplaceArg(output, reqs[i]);
    }
    assert reqs[..|reqs|] == reqs;
  }

  lemma FoldNothing(ts: seq<string>)
    ensures Fold(ts, []) == ts
  {
  }

  lemma FoldOneMore(ts: seq<string>, reqs: seq<string>, i: nat)
    requires i < |reqs|
    ensures Fold(ts, reqs[..i + 1]) == Update(Fold(ts, reqs[..i]), reqs[i])
  {
    hide Update;
    assert reqs[..i + 1][..i] == reqs[..i];
  }

  lemma UpdateMembers(ts: seq<string>, arg: string, t: string)
    ensures t in Update(ts, arg) <==> t == arg || (t in ts && !Sets(t, KeyOf(arg)))
  {
    hide Sets, KeyOf, FirstSetting, Others;
    var key := KeyOf(arg);
    var i := FirstSetting(ts, key);
    if i < |ts| {
      OthersMembers(ts[i + 1..], {key});
      assert key in {key};
      assert ts == ts[..i] + [ts[i]] + ts[i + 1..];
      assert forall x :: x in ts[..i] ==> !Sets(x, key);
    }
  }

  /** A token stays in, or gets into, the folded line if no reported argument but itself sets its key. */
  lemma {:induction false} FoldKeeps(ts: seq<string>, reqs: seq<string>, t: string)
    requires t in ts || t in reqs
    requires forall r :: r in reqs && Sets(t, KeyOf(r)) ==> r == t
    ensures t in Fold(ts, reqs)
  {
    if |reqs| > 0 {
      var front, last := reqs[..|reqs| - 1], reqs[|reqs| - 1];
      assert reqs == front + [last];
      UpdateMembers(Fold(ts, front), last, t);
      if t != last {
        assert last in reqs;
        assert forall r :: r in front ==> r in reqs;
        FoldKeeps(ts, front, t);
      }
    }
  }

  /** Whatever the fold did not put in was there before. */
  lemma {:induction false} FoldAddsNothingElse(ts: seq<string>, reqs: seq<string>, t: string)
    requires t in Fold(ts, reqs)
    ensures t in ts || t in reqs
  {
    if |reqs| > 0 {
      var front, last := reqs[..|reqs| - 1], reqs[|reqs| - 1];
      UpdateMembers(Fold(ts, front), last, t);
      if t != last {
        FoldAddsNothingElse(ts, front, t);
      }
    }
  }

  // ----- Counting and order -----

  lemma {:induction false} CountConcat(a: seq<string>, b: seq<string>, key: string)
    ensures Count(a + b, key) == Count(a, key) + Count(b, key)
  {
    if |b| == 0 {
      assert a + b == a;
    } else {
      assert (a + b)[..|a + b| - 1] == a + b[..|b| - 1];
      CountConcat(a, b[..|b| - 1], key);
    }
  }

  lemma {:induction false} CountZero(ts: seq<string>, key: string)
    requires forall t :: t in ts ==> !Sets(t, key)
    ensures Count(ts, key) == 0
  {
    if |ts| > 0 {
      CountZero(ts[..|ts| - 1], key);
    }
  }

  lemma {:induction false} CountOthers(ts: seq<string>, other: string, key: string)
    requires forall t :: t in ts && Sets(t, key) ==> !Sets(t, other)
    ensures Count(Others(ts, {other}), key) == Count(ts, key)
  {
    if |ts| > 0 {
      var front, last := ts[..|ts| - 1], ts[|ts| - 1];
      CountOthers(front, other, key);
      var o := Others(front, {other});
      if !Sets(last, other) {
        assert (o + [last])[..|o|] == o;
      }
    }
  }

  lemma CountAround(a: seq<string>, t: string, b: seq<string>, key: string)
    ensures Count(a + [t] + b, key) == Count(a, key) + (if Sets(t, key) then 1 else 0) + Count(b, key)
  {
    CountConcat(a + [t], b, key);
    assert (a + [t])[..|a|] == a;
  }

  lemma OneKeyOnly(t: string, key: string, other: string)
    requires '=' !in key && '=' !in other && Sets(t, key) && Sets(t, other)
    ensures key == other
  {
    SetsKey(t, key);
    SetsKey(t, other);
  }

  lemma OwnKey(arg: string)
    ensures Sets(arg, KeyOf(arg)) <==> '=' in arg
  {
    KeyFacts(arg);
    if Sets(arg, KeyOf(arg)) {
      SetsKey(arg, KeyOf(arg));
    }
  }

  /** A key=value argument sets its key once in the updated line; a bare one leaves no setting of it. */
  lemma CountUpdateOwn(ts: seq<string>, arg: string)
    ensures Count(Update(ts, arg), KeyOf(arg)) == if '=' in arg then 1 else 0
  {
    hide Sets, KeyOf, FirstSetting, Others, Count;
    var own := KeyOf(arg);
    OwnKey(arg);
    var i := FirstSetting(ts, own);
    var rest := if i < |ts| then Others(ts[i + 1..], {own}) else [];
    if i < |ts| {
      OthersMembers(ts[i + 1..], {own});
    }
    assert own in {own};
    CountZero(rest, own);
    CountZero(ts[..i], own);
    CountAround(ts[..i], arg, rest, own);
    assert Update(ts, arg) == ts[..i] + [arg] + rest;
  }

  lemma CountUpdateOther(ts: seq<string>, arg: string, key: string)
    requires '=' !in key && key != KeyOf(arg)
    ensures Count(Update(ts, arg), key) == Count(ts, key)
  {
    hide Sets, KeyOf, FirstSetting, Others, Count;
    var own := KeyOf(arg);
    KeyFacts(arg);
    forall t | Sets(t, key) ensures !Sets(t, own) && t != arg {
      SetsKey(t, key);
      if Sets(t, own) {
        OneKeyOnly(t, key, own);
      }
    }
    var i := FirstSetting(ts, own);
    if i == |ts| {
      CountAround(ts, arg, [], key);
      CountZero([], key);
      assert ts + [arg] + [] == ts + [arg];
    } else {
      var rest := ts[i + 1..];
      assert ts == ts[..i] + [ts[i]] + rest;
      CountAround(ts[..i], ts[i], rest, key);
      CountOthers(rest, own, key);
      CountAround(ts[..i], arg, Others(rest, {own}), key);
    }
  }

  /** In the folded line every updated key is set exactly once, and a bare argument's key not at all, if the
      report has no bare arguments (then it may repeat keys) or does not repeat keys. */
  lemma {:induction false} UpdatedKeyOnce(ts: seq<string>, reqs: seq<string>, arg: string)
    requires (KeyValue(reqs) || DistinctKeys(reqs)) && arg in reqs
    ensures Count(Fold(ts, reqs), KeyOf(arg)) == if '=' in arg then 1 else 0
  {
    var front, last := reqs[..|reqs| - 1], reqs[|reqs| - 1];
    assert reqs == front + [last];
    hide Count, Update, KeyOf;
    KeyFacts(arg);
    if KeyOf(arg) == KeyOf(last) {
      CountUpdateOwn(Fold(ts, front), last);
    } else {
      CountUpdateOther(Fold(ts, front), last, KeyOf(arg));
      UpdatedKeyOnce(ts, front, arg);
    }
  }

  lemma {:induction false} OthersConcat(a: seq<string>, b: seq<string>, keys: set<string>)
    ensures Others(a + b, keys) == Others(a, keys) + Others(b, keys)
  {
    if |b| == 0 {
      assert a + b == a;
    } else {
      assert (a + b)[..|a + b| - 1] == a + b[..|b| - 1];
      OthersConcat(a, b[..|b| - 1], keys);
    }
  }

  lemma {:induction false} OthersOthers(ts: seq<string>, key: string, keys: set<string>)
    requires key in keys
    ensures Others(Others(ts, {key}), keys) == Others(ts, keys)
  {
    if |ts| > 0 {
      var front, last := ts[..|ts| - 1], ts[|ts| - 1];
      OthersOthers(front, key, keys);
      if !Sets(last, key) {
        var o := Others(front, {key});
        assert (o + [last])[..|o|] == o;
      } else {
        assert key in {key};
      }
    }
  }

  lemma OthersAround(a: seq<string>, t: string, b: seq<string>, keys: set<string>, key: string)
    requires key in keys && Sets(t, key)
    ensures Others(a + [t] + b, keys) == Others(a, keys) + Others(b, keys)
  {
    OthersConcat(a + [t], b, keys);
    assert (a + [t])[..|a|] == a;
  }

  lemma OthersUpdate(ts: seq<string>, arg: string, keys: set<string>)
    requires '=' in arg && KeyOf(arg) in keys
    ensures Others(Update(ts, arg), keys) == Others(ts, keys)
  {
    var key := KeyOf(arg);
    KeyFacts(arg);
    var i := FirstSetting(ts, key);
    if i == |ts| {
      OthersAround(ts, arg, [], keys, key);
      assert ts + [arg] + [] == ts + [arg];
    } else {
      var rest := ts[i + 1..];
      assert ts == ts[..i] + [ts[i]] + rest;
      OthersAround(ts[..i], ts[i], rest, keys, key);
      OthersAround(ts[..i], arg, Others(rest, {key}), keys, key);
      OthersOthers(rest, key, keys);
    }
  }

  /** Tokens of all other keys, and bare tokens, survive the fold unchanged and in order. */
  lemma {:induction false} OtherTokensKeepOrder(ts: seq<string>, reqs: seq<string>, keys: set<string>)
    requires KeyValue(reqs) && Keys(reqs) <= keys
    ensures Others(Fold(ts, reqs), keys) == Others(ts, keys)
  {
    if |reqs| > 0 {
      var front, last := reqs[..|reqs| - 1], reqs[|reqs| - 1];
      assert reqs == front + [last];
      assert KeyOf(last) in Keys(reqs);
      OtherTokensKeepOrder(ts, front, keys);
      OthersUpdate(Fold(ts, front), last, keys);
    }
  }

  // ----- The checker and the rewriter agree -----

  lemma MissingEmpty(args: seq<string>, have: seq<string>)
    ensures Missing(args, have) == [] <==> forall t :: t in args ==> t in have
  {
    MissingMembers(args, have);
    var m := Missing(args, have);
    if m != [] {
      assert m[0] in m;
    }
  }

  /** The check reads the running line, the fold rewrites another one. For arguments with pairwise
      different keys, the result holds all of them exactly when the rewritten line already had the
      arguments the running line had. */
  lemma FoldAgainstOtherLine(running: seq<string>, grub: seq<string>, args: seq<string>)
    requires DistinctKeys(args)
    ensures Missing(args, Fold(grub, Missing(args, running))) == []
            <==> forall t :: t in args && t in running ==> t in grub
  {
    var reqs := Missing(args, running);
    MissingMembers(args, running);
    MissingEmpty(args, Fold(grub, reqs));
    forall t, r | t in args && r in reqs && Sets(t, KeyOf(r)) ensures r == t {
      KeyFacts(r);
      SetsKey(t, KeyOf(r));
      var i :| 0 <= i < |args| && args[i] == t;
      var j :| 0 <= j < |args| && args[j] == r;
    }
    forall t | t in args && (t in grub || t in reqs) ensures t in Fold(grub, reqs) {
      FoldKeeps(grub, reqs, t);
    }
    forall t | t in args && t in Fold(grub, reqs) ensures t in grub || t in reqs {
      FoldAddsNothingElse(grub, reqs, t);
    }
  }

  /** On one and the same line, nothing is missing after the fold. */
  lemma NothingMissingAfterFold(line: seq<string>, args: seq<string>)
    requires DistinctKeys(args)
    ensures Missing(args, Fold(line, Missing(args, line))) == []
  {
    FoldAgainstOtherLine(line, line, args);
  }

  lemma {:induction false} CountAtLeast(ts: seq<string>, key: string, x: string, y: string)
    requires x in ts && y in ts && x != y && Sets(x, key) && Sets(y, key)
    ensures Count(ts, key) >= 2
  {
    var front, last := ts[..|ts| - 1], ts[|ts| - 1];
    assert ts == front + [last];
    if x in front && y in front {
      CountAtLeast(front, key, x, y);
    } else {
      var z := if x in front then x else y;
      CountPositive(front, key, z);
    }
  }

  lemma {:induction false} CountPositive(ts: seq<string>, key: string, x: string)
    requires x in ts && Sets(x, key)
    ensures Count(ts, key) >= 1
  {
    var front, last := ts[..|ts| - 1], ts[|ts| - 1];
    assert ts == front + [last];
    if x != last {
      CountPositive(front, key, x);
    }
  }

  /** Exactly when the agreement holds without the different-keys condition: two different settings
      of one key must both have been in the line beforehand. */
  lemma NothingMissingExactly(line: seq<string>, args: seq<string>)
    requires KeyValue(args)
    ensures Missing(args, Fold(line, Missing(args, line))) == []
            <==> forall x, y :: x in args && y in args && x != y && KeyOf(x) == KeyOf(y) ==> x in line && y in line
  {
    var reqs := Missing(args, line);
    MissingMembers(args, line);
    var result := Fold(line, reqs);
    MissingEmpty(args, result);
    if forall x, y :: x in args && y in args && x != y && KeyOf(x) == KeyOf(y) ==> x in line && y in line {
      forall t | t in args ensures t in result {
        forall r | r in reqs && Sets(t, KeyOf(r)) ensures r == t {
          KeyFacts(r);
          SetsKey(t, KeyOf(r));
        }
        FoldKeeps(line, reqs, t);
      }
    } else {
      var x, y :| x in args && y in args && x != y && KeyOf(x) == KeyOf(y) && !(x in line && y in line);
      var z := if x in line then y else x;
      UpdatedKeyOnce(line, reqs, z);
      KeyFacts(x);
      KeyFacts(y);
      if x in result && y in result {
        CountAtLeast(result, KeyOf(z), x, y);
      }
    }
  }

  /** The condition is needed: with two values for one key the second overwrites the first. */
  lemma RepeatedKeyLosesAValue(key: string, v: string, w: string)
    requires '=' !in key && v != w
    ensures var args := [key + "=" + v, key + "=" + w];
            Missing(args, Fold([], Missing(args, []))) != []
  {
    var x, y := key + "=" + v, key + "=" + w;
    var args := [x, y];
    assert x[|key| + 1..] == v && y[|key| + 1..] == w;
    SetsKey(x, key);
    SetsKey(y, key);
    assert x in args && y in args && x != y && x !in [];
    NothingMissingExactly([], args);
  }

  // ----- Folding twice -----

  lemma UpdateIsIdentity(ts: seq<string>, arg: string)
    requires '=' in arg && arg in ts && Count(ts, KeyOf(arg)) == 1
    ensures Update(ts, arg) == ts
  {
    hide Count, Sets, KeyOf, Others;
    var key := KeyOf(arg);
    OwnKey(arg);
    var i := FirstSetting(ts, key);
    var a :| 0 <= a < |ts| && ts[a] == arg;
    var rest := ts[i + 1..];
    assert ts == ts[..i] + [ts[i]] + rest;
    CountAround(ts[..i], ts[i], rest, key);
    NoneSetting(rest, key);
    if a > i {
      assert rest[a - i - 1] == arg && arg in rest;
      CountPositive(rest, key, arg);
    }
  }

  lemma {:induction false} NoneSetting(ts: seq<string>, key: string)
    requires Count(ts, key) == 0
    ensures Others(ts, {key}) == ts
  {
    if |ts| > 0 {
      NoneSetting(ts[..|ts| - 1], key);
    }
  }

  /** A bare argument whose key is not set is appended. */
  lemma UpdateAppends(ts: seq<string>, arg: string)
    requires '=' !in arg && Count(ts, KeyOf(arg)) == 0
    ensures Update(ts, arg) == ts + [arg]
  {
    hide Count, Sets, KeyOf, Others;
    var key := KeyOf(arg);
    var i := FirstSetting(ts, key);
    if i < |ts| {
      CountPositive(ts, key, ts[i]);
    }
  }

  /** Each key=value argument is in the line, the only setting of its key; bare ones have no settings. */
  ghost predicate Settled(ts: seq<string>, reqs: seq<string>) {
    forall r :: r in reqs ==> if '=' in r then r in ts && Count(ts, KeyOf(r)) == 1 else Count(ts, KeyOf(r)) == 0
  }

  function Bare(reqs: seq<string>): seq<string> {
    if |reqs| == 0 then []
    else
      var front, last := Bare(reqs[..|reqs| - 1]), reqs[|reqs| - 1];
      if '=' in last then front else front + [last]
  }

  lemma {:induction false} BareNone(reqs: seq<string>)
    ensures Bare(reqs) == [] <==> KeyValue(reqs)
  {
    if |reqs| > 0 {
      assert reqs == reqs[..|reqs| - 1] + [reqs[|reqs| - 1]];
      BareNone(reqs[..|reqs| - 1]);
    }
  }

  lemma BareAppendedStaysSettled(ts: seq<string>, all: seq<string>, arg: string)
    requires Settled(ts, all) && '=' !in arg
    ensures Settled(ts + [arg], all)
  {
    forall r | r in all ensures Count(ts + [arg], KeyOf(r)) == Count(ts, KeyOf(r)) {
      KeyFacts(r);
      if Sets(arg, KeyOf(r)) {
        SetsKey(arg, KeyOf(r));
      }
      assert (ts + [arg])[..|ts|] == ts;
    }
  }

  /** On a settled line the fold only appends the bare arguments. */
  lemma {:induction false} FoldSettled(ts: seq<string>, reqs: seq<string>, all: seq<string>)
    requires Settled(ts, all) && forall r :: r in reqs ==> r in all
    ensures Fold(ts, reqs) == ts + Bare(reqs) && Settled(Fold(ts, reqs), all)
  {
    if |reqs| > 0 {
      var front, last := reqs[..|reqs| - 1], reqs[|reqs| - 1];
      assert reqs == front + [last];
      hide Update, Count, KeyOf;
      FoldSettled(ts, front, all);
      var f := Fold(ts, front);
      if '=' in last {
        UpdateIsIdentity(f, last);
      } else {
        UpdateAppends(f, last);
        BareAppendedStaysSettled(f, all, last);
      }
    }
  }

  lemma FoldedIsSettled(ts: seq<string>, reqs: seq<string>)
    requires DistinctKeys(reqs)
    ensures Settled(Fold(ts, reqs), reqs)
  {
    hide Fold, Count;
    forall r | r in reqs
      ensures Count(Fold(ts, reqs), KeyOf(r)) == (if '=' in r then 1 else 0) && r in Fold(ts, reqs)
    {
      forall q | q in reqs && Sets(r, KeyOf(q)) ensures q == r {
        KeyFacts(q);
        SetsKey(r, KeyOf(q));
        var i :| 0 <= i < |reqs| && reqs[i] == q;
        var j :| 0 <= j < |reqs| && reqs[j] == r;
      }
      FoldKeeps(ts, reqs, r);
      UpdatedKeyOnce(ts, reqs, r);
    }
  }

  /** A second fold of a report with pairwise different keys appends its bare arguments once more and does
      nothing else; it changes nothing, neither tokens nor text, exactly if every argument is key=value. */
  lemma SecondFoldChangesNothing(ts: seq<string>, reqs: seq<string>)
    requires AllTokens(ts) && AllTokens(reqs) && DistinctKeys(reqs)
    ensures Fold(Fold(ts, reqs), reqs) == Fold(ts, reqs) + Bare(reqs)
    ensures Fold(Fold(ts, reqs), reqs) == Fold(ts, reqs) <==> KeyValue(reqs)
    ensures Join(Fold(Split(Join(Fold(ts, reqs))), reqs)) == Join(Fold(ts, reqs)) <==> KeyValue(reqs)
  {
    hide Fold, Split, Join, Bare, IsToken;
    var f := Fold(ts, reqs);
    FoldedIsSettled(ts, reqs);
    FoldSettled(f, reqs, reqs);
    BareNone(reqs);
    FoldTokens(ts, reqs);
    FoldTokens(f, reqs);
    SplitJoin(f);
    SplitJoin(Fold(f, reqs));
    if f + Bare(reqs) == f {
      assert |Bare(reqs)| == 0;
    }
  }

  lemma {:induction false} FoldTokens(ts: seq<string>, reqs: seq<string>)
    requires AllTokens(ts) && AllTokens(reqs)
    ensures AllTokens(Fold(ts, reqs))
  {
    if |reqs| > 0 {
      FoldTokens(ts, reqs[..|reqs| - 1]);
      UpdateTokens(Fold(ts, reqs[..|reqs| - 1]), reqs[|reqs| - 1]);
    }
  }

  /** The path of `update_kernel_cmdline` that edits the grub line, up to the removal of arguments:
      the report comes from the running line `proc`, the rewritten line is `grub`. */
  method RewriteGrubLine(proc: Option<string>, grub: string, args: string) returns (output: string)
    ensures proc.None? ==> output == grub
    ensures proc.Some? && DistinctKeys(Split(args)) ==>
              (Missing(Split(args), Split(output)) == []
               <==> forall t :: t in Split(args) && t in Split(proc.value) ==> t in Split(grub))
    ensures proc == Some(grub) && DistinctKeys(Split(args)) ==> Missing(Split(args), Split(output)) == []
    ensures KeyValue(Split(args)) ==>
              Others(Split(output), Keys(Split(args))) == Others(Split(grub), Keys(Split(args)))
  {
    var req, _ := CheckKernelCmdline(proc, args, "");
    output := FoldArgs(grub, req);
    if proc.Some? {
      ghost var wanted, reqs := Split(args), Missing(Split(args), Split(proc.value));
      MissingMembers(wanted, Split(proc.value));
      if DistinctKeys(wanted) {
        FoldAgainstOtherLine(Split(proc.value), Split(grub), wanted);
      }
      if KeyValue(wanted) {
        OtherTokensKeepOrder(Split(grub), reqs, Keys(wanted));
      }
    }
  }
}
