/**
 The problem list and the guards of src/engagement/config.ts. Every method of the validator
 reports nothing exactly when its part is well formed, and then returns what the part stands for.
 */
module ConfigGuards {
  import opened Basics
  import opened ConfigModel
  import opened ConfigRules
  import opened JsonValues
  import opened Sequences
  import Digits

  /** `after` problems where there were `before`: the same number exactly when the part is fine. */
  predicate Reports(before: nat, after: nat, fine: bool) {
    if fine then after == before else after > before
  }

  function KeyAt(parent: string, k: string): string { if parent == "" then k else parent + "." + k }

  function ItemAt(key: string, i: nat): string { key + "[" + Digits.Print(i) + "]" }

  function SafeChar(c: char): char { if IsWordChar(c) || c == '.' || c == '-' then c else '?' }

  function SafeKey(k: string): string {
    var n := if |k| < 40 then |k| else 40;
    seq(n, i requires 0 <= i < n => SafeChar(k[i]))
  }

  lemma DistinctGrows(s: seq<string>, i: nat)
    requires i < |s|
    ensures Distinct(s[..i + 1]) <==> Distinct(s[..i]) && s[i] !in IdSet(s[..i])
    ensures IdSet(s[..i + 1]) == IdSet(s[..i]) + {s[i]}
  {
    var t := s[..i + 1];
    assert s[..i] == t[..i];
    forall x
      ensures x in IdSet(t) <==> x in IdSet(s[..i]) || x == s[i]
    {
      if x in IdSet(s[..i]) {
        var j :| 0 <= j < i && s[..i][j] == x;
        assert t[j] == x;
      }
      assert t[i] == s[i];
    }
    if Distinct(s[..i]) && s[i] !in IdSet(s[..i]) {
      forall a, b | 0 <= a < b < |t|
        ensures t[a] != t[b]
      {
        assert s[..i][a] in IdSet(s[..i]);
      }
    }
    if s[i] in IdSet(s[..i]) {
      var j :| 0 <= j < i && s[..i][j] == s[i];
      assert t[j] == t[i];
    }
  }

  lemma MapGrows<T, U>(s: seq<T>, f: T -> U, i: nat)
    requires i < |s|
    ensures Map(s, f)[..i + 1] == Map(s, f)[..i] + [f(s[i])]
  {
  }

  lemma WholePrefix<T>(s: seq<T>)
    ensures s[..|s|] == s
  {
  }

  /** Why something is refused; the source prints a fixed text for each. */
  datatype Reason =
    | NotAText(max: nat)
    | AwsLocation(problem: string)
    | OnlyWithKindManaged | NotATimestamp | LooksLikeCredential | UnknownKey | TotalsWithoutSource | NotAnAccountId
    | OnlyWithExplicitSubset | TooDeep | RepeatedProvider | RepeatedCurrency | MustNameAnotherSource
    | UndeclaredWorkload | NotOneAmountPerCurrency | SameModel | NotASecretName | NotAnAllowedWord | NotAccounts
    | NotAFocusProvider | PeriodReversed | NotAnObjectValue | NotTotals | NotParams | NotAnAccountMap | NotAList
    | NotACurrency | NotATimeZone | NotAParamValue | NotAString | NotASingleLine | NotAFileName | NotAShare
    | NotATokenCount | NotAFilePath | NotAHash | BelowOneCent | NotASourceId | MustNameNoneOrAnotherSource
    | Duplicate | SourceWithoutTotals | NotAnId | NotAUuid | NotFlags | NotAFlag | PlatformDisabled | Invalid

  /** A problem names the key it is about. */
  datatype Problem = Problem(key: string, why: Reason)

  class Ctx {
    var problems: seq<Problem>

    constructor ()
      ensures problems == []
    {
      problems := [];
    }

    method Bad(key: string, why: Reason)
      modifies this
      ensures problems == old(problems) + [Problem(key, why)]
    {
      problems := problems + [Problem(key, why)];
    }
  }

  // ---------------------------------------------------------------- guards

  /** A plain object, with a problem for every key outside `allowed`. */
  method ObjectOf(c: Ctx, v: Json, key: string, allowed: seq<string>) returns (o: Option<Json>)
    modifies c
    ensures Reports(|old(c.problems)|, |c.problems|, OnlyKeys(v, allowed))
    ensures o == if v.Object? then Some(v) else None
  {
    if !v.Object? {
      c.Bad(key, NotAnObjectValue);
      return None;
    }
    for i := 0 to |v.keys|
      invariant Reports(|old(c.problems)|, |c.problems|, forall j :: 0 <= j < i ==> v.keys[j] in allowed)
    {
      if v.keys[i] !in allowed {
        c.Bad(KeyAt(key, SafeKey(v.keys[i])), UnknownKey);
      }
    }
    return Some(v);
  }

  /** The same, with `{}` standing in for what is not an object. */
  method ObjectOrEmpty(c: Ctx, v: Json, key: string, allowed: seq<string>) returns (o: Json)
    modifies c
    ensures Reports(|old(c.problems)|, |c.problems|, OnlyKeys(v, allowed))
    ensures o == if v.Object? then v else EMPTY
  {
    var r := ObjectOf(c, v, key, allowed);
    o := if r.Some? then r.value else EMPTY;
  }

  method TextAt(c: Ctx, o: Json, parent: string, k: string, max: nat) returns (r: Option<string>)
    modifies c
    ensures Reports(|old(c.problems)|, |c.problems|, IsText(Get(o, k), max))
    ensures r == if IsText(Get(o, k), max) then Some(Word(Get(o, k))) else None
  {
    var v := Get(o, k);
    if !IsText(v, max) {
      c.Bad(KeyAt(parent, k),
          NotAText(max));
      return None;
    }
    return Some(v.text);
  }

  method WordAt(c: Ctx, o: Json, parent: string, k: string, allowed: seq<string>) returns (r: Option<string>)
    modifies c
    ensures Reports(|old(c.problems)|, |c.problems|, OneOf(Get(o, k), allowed))
    ensures r == if OneOf(Get(o, k), allowed) then Some(Word(Get(o, k))) else None
  {
    var v := Get(o, k);
    if OneOf(v, allowed) {
      return Some(v.text);
    }
    c.Bad(KeyAt(parent, k), NotAnAllowedWord);
    return None;
  }

  method ListAt(c: Ctx, o: Json, parent: string, k: string, min: nat, max: nat) returns (r: Option<seq<Json>>)
    modifies c
    ensures Reports(|old(c.problems)|, |c.problems|, IsList(Get(o, k), min, max))
    ensures r == if IsList(Get(o, k), min, max) then Some(Items(Get(o, k))) else None
  {
    var v := Get(o, k);
    if !IsList(v, min, max) {
      c.Bad(KeyAt(parent, k), NotAList);
      return None;
    }
    return Some(v.items);
  }

  function Present(v: Option<string>): string { if v.Some? then v.value else "" }

  lemma IsHashText(v: Json)
    ensures IsHash(v) ==> v.Text?
  {
  }

  lemma IsCurrencyText(v: Json)
    ensures IsCurrency(v) ==> v.Text?
  {
  }

  lemma IsTextWord(v: Json, max: nat)
    ensures IsText(v, max) ==> v.Text? && Word(v) == v.text
  {
  }

  lemma OneOfWord(v: Json, allowed: seq<string>)
    ensures OneOf(v, allowed) ==> v.Text? && Word(v) == v.text
  {
  }

  lemma NotAnObject(v: Json, allowed: seq<string>)
    ensures OnlyKeys(v, allowed) ==> v.Object?
    ensures !v.Object? ==> forall k :: Get(v, k) == Get(EMPTY, k)
  {
  }
}
