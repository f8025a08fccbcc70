/** The eval runner's command line: the prefix classification of each argument, the last-wins
    fields, the positional category or eval-name filter, and the help and man switches.
    Printing, `process.env` writes and `process.exit` are replaced by the returned outcome. */
module EvalArgs {
  import opened Values
  import opened Text

  // ---------------------------------------------------------------- split on a character

  /** `s.split(c)` for a one-character separator. */
  function Split(s: string, c: char): (pieces: seq<string>)
    ensures |pieces| >= 1
    ensures c in s ==> |pieces| >= 2
    ensures forall k :: 0 <= k < |pieces| ==> c !in pieces[k]
    decreases |s|
  {
    if c !in s then [s]
    else
      var (before, after) := SplitAtFirst(s, c);
      [before] + Split(after, c)
  }

  /** `pieces.join(c)`. */
  function JoinWith(pieces: seq<string>, c: char): string
    requires |pieces| >= 1
  {
    if |pieces| == 1 then pieces[0] else pieces[0] + [c] + JoinWith(pieces[1..], c)
  }

  /** Splitting loses nothing: joining the pieces gives the string back. */
  lemma {:induction false} JoinSplit(s: string, c: char)
    ensures JoinWith(Split(s, c), c) == s
    decreases |s|
  {
    if c in s {
      var (before, after) := SplitAtFirst(s, c);
      JoinSplit(after, c);
    }
  }

  /** And joining pieces free of the separator splits back into those pieces. */
  lemma {:induction false} SplitJoin(pieces: seq<string>, c: char)
    requires |pieces| >= 1
    requires forall k :: 0 <= k < |pieces| ==> c !in pieces[k]
    ensures Split(JoinWith(pieces, c), c) == pieces
    decreases |pieces|
  {
    if |pieces| > 1 {
      var rest := JoinWith(pieces[1..], c);
      SplitAtFirstOfJoin(pieces[0], c, rest);
      SplitJoin(pieces[1..], c);
    }
  }

  /** `arg.split("=")[1]`, for an argument that has a `=`. */
  function Value(arg: string): string
    requires '=' in arg
  {
    Split(arg, '=')[1]
  }

  /** The value is the text after the first `=`, up to the next `=` or the end. */
  lemma ValueIsSecondSegment(before: string, after: string)
    requires '=' !in before
    ensures Value(before + "=" + after) == TakeUntil(after, '=')
  {
    SplitAtFirstOfJoin(before, '=', after);
    var s := before + "=" + after;
    assert s == before + ['='] + after;
    assert Value(s) == Split(after, '=')[0];
    if '=' in after {
      var (b, a) := SplitAtFirst(after, '=');
      assert after == b + ['='] + a;
      assert after[|b|] == '=';
      assert after[..|b|] == b;
      assert TakeUntil(after, '=') == b;
    }
  }

  /** `name=a=b` gives `a`. */
  lemma NameValueStopsAtSecondEquals()
    ensures Value("name=a=b") == "a"
  {
    ValueIsSecondSegment("name", "a=b");
    assert "name" + "=" + "a=b" == "name=a=b";
    assert "a=b"[1] == '=';
  }

  // ---------------------------------------------------------------- parseInt(s, 10)

  /** The characters TrimStart removes: WhiteSpace and LineTerminator (sections 12.2 and 12.3 of
      ECMA-262). */
  predicate IsSpace(c: char) {
    ('\U{0009}' <= c <= '\U{000D}') || c == '\U{0020}' || c == '\U{00A0}' || c == '\U{1680}' ||
    ('\U{2000}' <= c <= '\U{200A}') || c == '\U{2028}' || c == '\U{2029}' || c == '\U{202F}' ||
    c == '\U{205F}' || c == '\U{3000}' || c == '\U{FEFF}'
  }

  /** `s.trimStart()`. */
  function TrimStart(s: string): (r: string)
    ensures |r| <= |s| && r == s[|s| - |r|..]
    ensures r == "" || !IsSpace(r[0])
  {
    if s != [] && IsSpace(s[0]) then TrimStart(s[1..]) else s
  }

  /** Only white space is trimmed. */
  lemma {:induction false} TrimStartRemovesSpace(s: string)
    ensures forall i :: 0 <= i < |s| - |TrimStart(s)| ==> IsSpace(s[i])
    decreases |s|
  {
    if s != [] && IsSpace(s[0]) {
      TrimStartRemovesSpace(s[1..]);
      forall i | 1 <= i < |s| - |TrimStart(s)|
        ensures IsSpace(s[i])
      {
        assert s[1..][i - 1] == s[i];
      }
    }
  }

  predicate IsDigit(c: char) {
    '0' <= c <= '9'
  }

  /** The longest prefix of decimal digits. */
  function LeadingDigits(s: string): (r: string)
    ensures StartsWith(s, r)
    ensures forall i :: 0 <= i < |r| ==> IsDigit(r[i])
    ensures |r| == |s| || !IsDigit(s[|r|])
  {
    if s != [] && IsDigit(s[0]) then [s[0]] + LeadingDigits(s[1..]) else ""
  }

  /** The number a string of decimal digits denotes. */
  function DigitsValue(d: string): nat
    requires forall i :: 0 <= i < |d| ==> IsDigit(d[i])
  {
    if d == [] then 0
    else
      var last := d[|d| - 1];
      assert IsDigit(last);
      10 * DigitsValue(d[..|d| - 1]) + (last as int - '0' as int)
  }

  /** What `parseInt` reads digits from: `s` without leading white space and one sign. */
  function Unsigned(s: string): (r: string)
    ensures var t := TrimStart(s); r == t || (t != [] && (t[0] == '-' || t[0] == '+') && r == t[1..])
  {
    var t := TrimStart(s);
    if t != [] && (t[0] == '-' || t[0] == '+') then t[1..] else t
  }

  /** `parseInt(s, 10)` (section 19.2.5 of ECMA-262): leading white space is skipped, one sign is
      read, then the longest run of digits; `None` stands for NaN, when there are no digits. */
  function ParseInt(s: string): (r: Option<int>)
    ensures r.None? <==> Unsigned(s) == [] || !IsDigit(Unsigned(s)[0])
  {
    var t := TrimStart(s);
    var digits := LeadingDigits(Unsigned(s));
    if digits == [] then None
    else
      var n: int := DigitsValue(digits);
      Some(if t[0] == '-' then -n else n)
  }

  /** Reading back the digits `String(n)` writes gives `n`. */
  lemma {:induction false} DigitsValueOfDecimal(n: nat)
    ensures forall i :: 0 <= i < |NatToDecimal(n)| ==> IsDigit(NatToDecimal(n)[i])
    ensures DigitsValue(NatToDecimal(n)) == n
    decreases n
  {
    DecimalIsDigits(n);
    if n >= 10 {
      DigitsValueOfDecimal(n / 10);
      var d := NatToDecimal(n);
      assert d[..|d| - 1] == NatToDecimal(n / 10);
    }
  }

  /** All of a digit string is leading digits. */
  lemma {:induction false} LeadingDigitsOfDigits(d: string, rest: string)
    requires forall i :: 0 <= i < |d| ==> IsDigit(d[i])
    requires rest == [] || !IsDigit(rest[0])
    ensures LeadingDigits(d + rest) == d
    decreases |d|
  {
    if d != [] {
      assert (d + rest)[1..] == d[1..] + rest;
      LeadingDigitsOfDigits(d[1..], rest);
    } else {
      assert d + rest == rest;
    }
  }

  /** Nothing is trimmed from a string that starts with a visible character. */
  lemma TrimStartOfVisible(s: string)
    requires s != [] && !IsSpace(s[0])
    ensures TrimStart(s) == s
  {
  }

  /** A string that starts with a digit is its own trimmed, unsigned text. */
  lemma DigitFirstIsUnsigned(s: string)
    requires s != [] && IsDigit(s[0])
    ensures TrimStart(s) == s && Unsigned(s) == s
  {
    TrimStartOfVisible(s);
  }

  /** `parseInt` reads back what `String` writes for a natural number, and stops at the first
      character that is not a digit. */
  lemma ParseIntOfNat(n: nat, rest: string)
    requires rest == [] || !IsDigit(rest[0])
    ensures ParseInt(NatToDecimal(n) + rest) == Some(n)
  {
    DigitsValueOfDecimal(n);
    ParseIntOfDigits(NatToDecimal(n), n, rest);
  }

  /** Digits worth `n` followed by something that is not a digit. */
  lemma ParseIntOfDigits(d: string, n: nat, rest: string)
    requires d != [] && forall i :: 0 <= i < |d| ==> IsDigit(d[i])
    requires DigitsValue(d) == n
    requires rest == [] || !IsDigit(rest[0])
    ensures ParseInt(d + rest) == Some(n)
  {
    LeadingDigitsOfDigits(d, rest);
    ParseIntOfDigitFirst(d + rest, d, n);
  }

  /** `parseInt` of text that starts with digits worth `n`. */
  lemma ParseIntOfDigitFirst(t: string, d: string, n: nat)
    requires LeadingDigits(t) == d && d != []
    requires DigitsValue(d) == n
    ensures ParseInt(t) == Some(n)
  {
    assert t[0] == d[0];
    DigitFirstIsUnsigned(t);
  }

  /** `parseInt` of a minus sign followed by text that starts with digits worth `n`. */
  lemma ParseIntOfMinus(t: string, d: string, n: nat)
    requires LeadingDigits(t) == d && d != []
    requires DigitsValue(d) == n
    ensures ParseInt("-" + t) == Some(-(n as int))
  {
    var s := "-" + t;
    assert s[0] == '-';
    TrimStartOfVisible(s);
    assert s[1..] == t;
  }

  /** A minus sign, digits worth `n`, then something that is not a digit. */
  lemma ParseIntOfNegativeDigits(d: string, n: nat, rest: string)
    requires d != [] && forall i :: 0 <= i < |d| ==> IsDigit(d[i])
    requires DigitsValue(d) == n
    requires rest == [] || !IsDigit(rest[0])
    ensures ParseInt("-" + d + rest) == Some(-(n as int))
  {
    LeadingDigitsOfDigits(d, rest);
    ParseIntOfMinus(d + rest, d, n);
    ConcatAssociates("-", d, rest);
  }

  /** The same after a minus sign, for a negative number. */
  lemma ParseIntOfNegative(n: nat, rest: string)
    requires n > 0
    requires rest == [] || !IsDigit(rest[0])
    ensures ParseInt("-" + NatToDecimal(n) + rest) == Some(-(n as int))
  {
    DigitsValueOfDecimal(n);
    ParseIntOfNegativeDigits(NatToDecimal(n), n, rest);
  }

  /** Text that starts with neither a sign, a space nor a digit reads as NaN. */
  lemma ParseIntWithoutDigits(s: string)
    requires s == [] || (!IsDigit(s[0]) && !IsSpace(s[0]) && s[0] != '-' && s[0] != '+')
    ensures ParseInt(s) == None
  {
  }

  // ---------------------------------------------------------------- classification

  /** The keys an argument can set. */
  datatype Key = Env | Api | Name | Trials | Concurrency | Provider | Dataset | MaxK

  /** The prefix that selects each key. */
  function Prefix(k: Key): (p: string)
    ensures '=' in p && p[|p| - 1] == '='
  {
    match k
    case Env => "env="
    case Api => "api="
    case Name => "name="
    case Trials => "trials="
    case Concurrency => "concurrency="
    case Provider => "provider="
    case Dataset => "--dataset="
    case MaxK => "max_k="
  }

  /** The order in which the prefixes are tested. */
  const KeyOrder: seq<Key> := [Env, Api, Name, Trials, Concurrency, Provider, Dataset, MaxK]

  /** The first key from position `i` of `KeyOrder` on whose prefix `arg` starts with. */
  function ClassifyFrom(arg: string, i: nat): (r: Option<Key>)
    requires i <= |KeyOrder|
    ensures r.Some? ==> StartsWith(arg, Prefix(r.value))
    ensures r.None? ==> forall j :: i <= j < |KeyOrder| ==> !StartsWith(arg, Prefix(KeyOrder[j]))
    decreases |KeyOrder| - i
  {
    if i == |KeyOrder| then None
    else if StartsWith(arg, Prefix(KeyOrder[i])) then Some(KeyOrder[i])
    else ClassifyFrom(arg, i + 1)
  }

  /** At most one prefix fits any argument, so the testing order never decides between two. */
  lemma PrefixesExclusive(arg: string, a: Key, b: Key)
    requires StartsWith(arg, Prefix(a)) && StartsWith(arg, Prefix(b))
    ensures a == b
  {
    assert arg[0] == Prefix(a)[0] == Prefix(b)[0];
  }

  /** The key an argument sets, `None` for an argument that goes to `leftover`: an argument sets
      exactly the key whose prefix it starts with. */
  function Classify(arg: string): (r: Option<Key>)
    ensures r.Some? ==> StartsWith(arg, Prefix(r.value)) && '=' in arg
  {
    var r := ClassifyFrom(arg, 0);
    assert r.Some? ==> arg[|Prefix(r.value)| - 1] == Prefix(r.value)[|Prefix(r.value)| - 1];
    r
  }

  /** An argument sets exactly the key whose prefix it starts with. */
  lemma ClassifyExact(arg: string, k: Key)
    ensures Classify(arg) == Some(k) <==> StartsWith(arg, Prefix(k))
  {
    if StartsWith(arg, Prefix(k)) {
      assert k in KeyOrder;
      var r := Classify(arg);
      if r.Some? {
        PrefixesExclusive(arg, k, r.value);
      }
    }
  }

  /** `dataset=` without the leading dashes matches no prefix and lands in `leftover`. */
  lemma DatasetNeedsDashes(rest: string)
    ensures Classify("dataset=" + rest).None?
  {
    var arg := "dataset=" + rest;
    assert arg[0] == 'd';
    forall k: Key
      ensures !StartsWith(arg, Prefix(k))
    {
      assert Prefix(k)[0] != 'd';
    }
  }

  /** The keys whose value is lower-cased. */
  predicate Lowercased(k: Key) {
    k == Env || k == Api || k == Provider || k == Dataset
  }

  // ---------------------------------------------------------------- the parsed arguments

  /** `parsedArgs`; `None` for a field never set. */
  datatype ParsedArgs = ParsedArgs(evalName: Option<string>, env: Option<string>, api: Option<string>,
                                   trials: Option<int>, concurrency: Option<int>, provider: Option<string>,
                                   dataset: Option<string>, maxK: Option<int>, leftover: seq<string>)

  const NoArgs: ParsedArgs := ParsedArgs(None, None, None, None, None, None, None, None, [])

  function Last(args: seq<string>): string
    requires args != []
  {
    args[|args| - 1]
  }

  function Init(args: seq<string>): seq<string>
    requires args != []
  {
    args[..|args| - 1]
  }

  /** The value of the last argument that sets `k`, lower-cased for the keys that lower-case. */
  function LastText(args: seq<string>, k: Key): Option<string>
  {
    if args == [] then None
    else if Classify(Last(args)) == Some(k) then
      Some(if Lowercased(k) then ToLowerAscii(Value(Last(args))) else Value(Last(args)))
    else LastText(Init(args), k)
  }

  /** The number of the last argument that sets `k` with a value `parseInt` reads. */
  function LastNumber(args: seq<string>, k: Key): Option<int>
  {
    if args == [] then None
    else if Classify(Last(args)) == Some(k) && ParseInt(Value(Last(args))).Some? then
      ParseInt(Value(Last(args)))
    else LastNumber(Init(args), k)
  }

  /** The arguments no prefix matches, in their order. */
  function Unmatched(args: seq<string>): seq<string>
  {
    if args == [] then []
    else if Classify(Last(args)).None? then Unmatched(Init(args)) + [Last(args)]
    else Unmatched(Init(args))
  }

  /** What the arguments say, field by field: last wins for every key, and numeric keys only
      count a readable number. */
  function Described(args: seq<string>): ParsedArgs
  {
    ParsedArgs(LastText(args, Name), LastText(args, Env), LastText(args, Api),
               LastNumber(args, Trials), LastNumber(args, Concurrency), LastText(args, Provider),
               LastText(args, Dataset), LastNumber(args, MaxK), Unmatched(args))
  }

  /** One more argument changes only the field it sets. */
  lemma DescribedSnoc(args: seq<string>, arg: string)
    ensures var d := Described(args);
      var k := Classify(arg);
      var n := if k.Some? then ParseInt(Value(arg)) else None;
      Described(args + [arg]) == ParsedArgs(
        if k == Some(Name) then Some(Value(arg)) else d.evalName,
        if k == Some(Env) then Some(ToLowerAscii(Value(arg))) else d.env,
        if k == Some(Api) then Some(ToLowerAscii(Value(arg))) else d.api,
        if k == Some(Trials) && n.Some? then n else d.trials,
        if k == Some(Concurrency) && n.Some? then n else d.concurrency,
        if k == Some(Provider) then Some(ToLowerAscii(Value(arg))) else d.provider,
        if k == Some(Dataset) then Some(ToLowerAscii(Value(arg))) else d.dataset,
        if k == Some(MaxK) && n.Some? then n else d.maxK,
        if k.None? then d.leftover + [arg] else d.leftover)
  {
    LastTextSnoc(args, arg, Name);
    LastTextSnoc(args, arg, Env);
    LastTextSnoc(args, arg, Api);
    LastTextSnoc(args, arg, Provider);
    LastTextSnoc(args, arg, Dataset);
    LastNumberSnoc(args, arg, Trials);
    LastNumberSnoc(args, arg, Concurrency);
    LastNumberSnoc(args, arg, MaxK);
    UnmatchedSnoc(args, arg);
  }

  lemma LastTextSnoc(args: seq<string>, arg: string, k: Key)
    ensures LastText(args + [arg], k) ==
      if Classify(arg) == Some(k) then Some(if Lowercased(k) then ToLowerAscii(Value(arg)) else Value(arg))
      else LastText(args, k)
  {
    var s := args + [arg];
    assert s != [] && Last(s) == arg && Init(s) == args;
  }

  lemma LastNumberSnoc(args: seq<string>, arg: string, k: Key)
    ensures LastNumber(args + [arg], k) ==
      if Classify(arg) == Some(k) && ParseInt(Value(arg)).Some? then ParseInt(Value(arg))
      else LastNumber(args, k)
  {
    var s := args + [arg];
    assert s != [] && Last(s) == arg && Init(s) == args;
  }

  lemma UnmatchedSnoc(args: seq<string>, arg: string)
    ensures Unmatched(args + [arg]) == if Classify(arg).None? then Unmatched(args) + [arg] else Unmatched(args)
  {
    var s := args + [arg];
    assert s != [] && Last(s) == arg && Init(s) == args;
  }

  /** The classification loop. */
  method ParseArgs(args: seq<string>) returns (p: ParsedArgs)
    ensures p == Described(args)
  {
    p := NoArgs;
    var i := 0;
    while i < |args|
      invariant 0 <= i <= |args|
      invariant p == Described(args[..i])
    {
      p := ApplyArg(args, i, p);
      i := i + 1;
    }
    assert args[..i] == args;
  }

  /** One pass of the loop: the first matching prefix picks the field `arg` sets. */
  method ApplyArg(args: seq<string>, i: nat, p: ParsedArgs) returns (q: ParsedArgs)
    requires i < |args| && p == Described(args[..i])
    ensures q == Described(args[..i + 1])
  {
    var arg := args[i];
    assert args[..i + 1] == args[..i] + [arg];
    DescribedSnoc(args[..i], arg);
    var k := Classify(arg);
    match k {
    case Some(Env) => q := p.(env := Some(ToLowerAscii(Value(arg))));
    case Some(Api) => q := p.(api := Some(ToLowerAscii(Value(arg))));
    case Some(Name) => q := p.(evalName := Some(Value(arg)));
    case Some(Trials) =>
      var val := ParseInt(Value(arg));
      q := if val.Some? then p.(trials := val) else p;
    case Some(Concurrency) =>
      var val := ParseInt(Value(arg));
      q := if val.Some? then p.(concurrency := val) else p;
    case Some(Provider) => q := p.(provider := Some(ToLowerAscii(Value(arg))));
    case Some(Dataset) => q := p.(dataset := Some(ToLowerAscii(Value(arg))));
    case Some(MaxK) =>
      var val := ParseInt(Value(arg));
      q := if val.Some? then p.(maxK := val) else p;
    case None => q := p.(leftover := p.leftover + [arg]);
    }
  }

  /** An unreadable number leaves the earlier value in place. */
  lemma InvalidNumberKeepsPrior(args: seq<string>, arg: string, k: Key)
    requires Classify(arg) == Some(k)
    requires ParseInt(Value(arg)).None?
    ensures LastNumber(args + [arg], k) == LastNumber(args, k)
  {
    assert Init(args + [arg]) == args;
  }

  /** Leftover arguments keep their order and are exactly the unmatched ones. */
  lemma {:induction false} UnmatchedIsOrderedFilter(args: seq<string>)
    ensures forall a :: a in Unmatched(args) <==> a in args && Classify(a).None?
    ensures |Unmatched(args)| <= |args|
    decreases |args|
  {
    if args != [] {
      var init, last := Init(args), Last(args);
      assert args == init + [last];
      UnmatchedIsOrderedFilter(init);
      UnmatchedSnoc(init, last);
    }
  }


  /** `leftover` distributes over concatenation: the unmatched arguments of `a + b` are those
      of `a` followed by those of `b`, so order and repetitions are kept. */
  lemma {:induction false} UnmatchedAppend(a: seq<string>, b: seq<string>)
    ensures Unmatched(a + b) == Unmatched(a) + Unmatched(b)
    decreases |b|
  {
    if b == [] {
      assert a + b == a;
    } else {
      var init, last := Init(b), Last(b);
      assert b == init + [last];
      assert a + b == (a + init) + [last];
      UnmatchedAppend(a, init);
      UnmatchedSnoc(a + init, last);
      UnmatchedSnoc(init, last);
    }
  }

  /** A single argument is left over exactly when no prefix matches it. */
  lemma UnmatchedSingle(arg: string)
    ensures Unmatched([arg]) == if Classify(arg).None? then [arg] else []
  {
    UnmatchedSnoc([], arg);
    assert [] + [arg] == [arg];
  }

  // ---------------------------------------------------------------- help and man

  /** `^(?:--?)?(?:w1|w2|...)$` with the `i` flag, for lower-case ASCII words that do not start
      with a dash: up to two dashes, then one of the words in any letter case. Without the `u`
      flag the `i` flag matches a non-ASCII character against no ASCII letter, so lower-casing
      the ASCII letters is exact here. */
  predicate MatchesSwitch(a: string, words: set<string>) {
    exists i :: 0 <= i <= 2 && i <= |a| && (forall j :: 0 <= j < i ==> a[j] == '-') && ToLowerAscii(a[i..]) in words
  }

  /** At most two leading dashes removed. */
  function StripDashes(a: string): (r: string)
    ensures |a| - 2 <= |r| <= |a| && r == a[|a| - |r|..]
    ensures forall j :: 0 <= j < |a| - |r| ==> a[j] == '-'
  {
    if StartsWith(a, "--") then a[2..] else if StartsWith(a, "-") then a[1..] else a
  }

  /** A word that does not start with a dash begins where the dashes end. */
  lemma {:induction false} SwitchStartsAfterDashes(a: string, words: set<string>, i: nat)
    requires forall w :: w in words ==> w != "" && w[0] != '-'
    requires i <= 2 && i <= |a| && (forall j :: 0 <= j < i ==> a[j] == '-') && ToLowerAscii(a[i..]) in words
    ensures a[i..] == StripDashes(a)
  {
    var w := ToLowerAscii(a[i..]);
    assert w[0] == LowerAscii(a[i]);
    assert a[i] != '-';
  }

  /** The regular expression holds exactly when the argument, stripped of its leading dashes,
      lower-cases to one of the words. */
  lemma {:induction false} SwitchMatchesStripped(a: string, words: set<string>)
    requires forall w :: w in words ==> w != "" && w[0] != '-'
    ensures MatchesSwitch(a, words) <==> ToLowerAscii(StripDashes(a)) in words
  {
    var r := StripDashes(a);
    var n := |a| - |r|;
    if ToLowerAscii(r) in words {
      assert 0 <= n <= 2 && ToLowerAscii(a[n..]) in words;
    }
    if MatchesSwitch(a, words) {
      var i :| 0 <= i <= 2 && i <= |a| && (forall j :: 0 <= j < i ==> a[j] == '-') && ToLowerAscii(a[i..]) in words;
      SwitchStartsAfterDashes(a, words, i);
    }
  }

  const HelpWords: set<string> := {"h", "help"}
  const ManWords: set<string> := {"man"}

  predicate WantsHelp(args: seq<string>) {
    exists a :: a in args && MatchesSwitch(a, HelpWords)
  }

  predicate WantsMan(args: seq<string>) {
    exists a :: a in args && MatchesSwitch(a, ManWords)
  }

  /** Some `-H`, `--help`, `h` ... asks for help; some `-man`, `MAN` ... asks for the manual. */
  lemma {:induction false} SwitchesByStripping(args: seq<string>)
    ensures WantsHelp(args) <==> exists a :: a in args && ToLowerAscii(StripDashes(a)) in HelpWords
    ensures WantsMan(args) <==> exists a :: a in args && ToLowerAscii(StripDashes(a)) in ManWords
  {
    forall a | a in args
      ensures MatchesSwitch(a, HelpWords) <==> ToLowerAscii(StripDashes(a)) in HelpWords
      ensures MatchesSwitch(a, ManWords) <==> ToLowerAscii(StripDashes(a)) in ManWords
    {
      SwitchMatchesStripped(a, HelpWords);
      SwitchMatchesStripped(a, ManWords);
    }
  }

  // ---------------------------------------------------------------- filters and outcome

  /** `filterByCategory` and `filterByEvalName`; `None` is `null`. */
  datatype Filters = Filters(category: Option<string>, evalName: Option<string>)

  /** The errors that end the runner with exit status 1. */
  datatype CliError = MissingCategory | InvalidCategory(name: string)

  /** The filters the parsed arguments select; `isCategory` is the category schema's check. */
  function DeriveFilters(p: ParsedArgs, isCategory: string -> bool): (r: Result<Filters, CliError>)
    ensures p.evalName.Some? && p.evalName.value != "" ==> r == Success(Filters(None, p.evalName))
    ensures r.Failure? ==> |p.leftover| > 0 && ToLowerAscii(p.leftover[0]) == "category"
    ensures r.Failure? && r.error == MissingCategory <==>
      (p.evalName.None? || p.evalName.value == "") && |p.leftover| > 0 &&
      ToLowerAscii(p.leftover[0]) == "category" && (|p.leftover| < 2 || p.leftover[1] == "")
    ensures r.Failure? && r.error.InvalidCategory? <==>
      (p.evalName.None? || p.evalName.value == "") && |p.leftover| >= 2 &&
      ToLowerAscii(p.leftover[0]) == "category" && p.leftover[1] != "" && !isCategory(p.leftover[1])
    ensures r.Failure? && r.error.InvalidCategory? ==> |p.leftover| >= 2 && r.error.name == p.leftover[1]
    ensures r.Success? && r.value.category.Some? ==>
      r.value.evalName.None? && |p.leftover| >= 2 && r.value.category.value == p.leftover[1] &&
      p.leftover[1] != "" && isCategory(p.leftover[1])
    ensures ((p.evalName.None? || p.evalName.value == "") && |p.leftover| > 0 &&
             ToLowerAscii(p.leftover[0]) != "category") ==> r == Success(Filters(None, Some(p.leftover[0])))
    ensures (p.evalName.None? || p.evalName.value == "") && p.leftover == [] ==> r == Success(Filters(None, None))
  {
    if p.evalName.Some? && p.evalName.value != "" then Success(Filters(None, p.evalName))
    else if p.leftover == [] then Success(Filters(None, None))
    else if ToLowerAscii(p.leftover[0]) == "category" then
      if |p.leftover| < 2 || p.leftover[1] == "" then Failure(MissingCategory)
      else if !isCategory(p.leftover[1]) then Failure(InvalidCategory(p.leftover[1]))
      else Success(Filters(Some(p.leftover[1]), None))
    else Success(Filters(None, Some(p.leftover[0])))
  }

  /** How the runner ends its argument handling. */
  datatype Outcome =
    | Usage(detailed: bool)                          // usage printed, exit status 0
    | Exit1(error: CliError)                         // error printed, exit status 1
    | Proceed(parsed: ParsedArgs, filters: Filters)

  /** The whole argument stage: help or man wins over everything, then the filters. */
  function Run(args: seq<string>, isCategory: string -> bool): (o: Outcome)
    ensures WantsHelp(args) || WantsMan(args) <==> o.Usage?
    ensures o.Usage? ==> o.detailed == WantsMan(args)
    ensures o.Proceed? ==> o.parsed == Described(args) && Success(o.filters) == DeriveFilters(o.parsed, isCategory)
    ensures o.Exit1? ==> Failure(o.error) == DeriveFilters(Described(args), isCategory)
  {
    if WantsHelp(args) || WantsMan(args) then Usage(WantsMan(args))
    else
      match DeriveFilters(Described(args), isCategory)
      case Success(f) => Proceed(Described(args), f)
      case Failure(e) => Exit1(e)
  }

  /** A `name=` argument with a non-empty value names the eval and the leftover arguments are
      not read as a filter, whatever they are. */
  lemma NameSuppressesLeftover(args: seq<string>, isCategory: string -> bool)
    requires !WantsHelp(args) && !WantsMan(args)
    requires LastText(args, Name).Some? && LastText(args, Name).value != ""
    ensures Run(args, isCategory) == Proceed(Described(args), Filters(None, LastText(args, Name)))
  {
  }
}
