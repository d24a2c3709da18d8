/** `paramLeaf` and `retrievalBlock` of src/engagement/config.ts. */
module ConfigRetrieval {
  import opened Basics
  import opened ConfigGuards
  import opened ConfigModel
  import opened ConfigRules
  import opened JsonValues
  import opened Sequences

  method StringsAt(c: Ctx, x: Outside, items: seq<Json>, key: string) returns (r: Option<Leaf>)
    modifies c
    ensures Reports(|old(c.problems)|, |c.problems|, AllPlain(x, items))
    ensures r == if AllPlain(x, items) then Some(Strs(Words(items))) else None
  {
    hide HasControl;
    var out: seq<string>, ok := [], true;
    for i := 0 to |items|
      invariant ok <==> AllPlain(x, items[..i])
      invariant Reports(|old(c.problems)|, |c.problems|, ok)
      invariant ok ==> out == Words(items)[..i]
    {
      var v := items[i];
      assert AllPlain(x, items[..i + 1]) <==> AllPlain(x, items[..i]) && PlainString(x, v) by {
        assert items[..i + 1] == items[..i] + [v];
      }
      if !v.Text? || |v.text| > 1000 || HasControl(v.text) {
        c.Bad(ItemAt(key, i), NotASingleLine);
        ok := false;
      } else if x.looksLikeCredential(v.text) {
        c.Bad(ItemAt(key, i), LooksLikeCredential);
        ok := false;
      } else {
        out := out + [v.text];
      }
    }
    WholePrefix(items);
    WholePrefix(Words(items));
    r := if ok then Some(Strs(out)) else None;
  }

  method LeafAt(c: Ctx, x: Outside, v: Json, key: string) returns (r: Option<Leaf>)
    modifies c
    ensures Reports(|old(c.problems)|, |c.problems|, LeafOk(x, v))
    ensures r == if LeafOk(x, v) then Some(LeafOf(v)) else None
  {
    hide AllPlain, HasControl;
    if v.Text? {
      if |v.text| > 1000 || HasControl(v.text) {
        c.Bad(key, NotASingleLine);
        return None;
      } else if x.looksLikeCredential(v.text) {
        c.Bad(key, LooksLikeCredential);
        return None;
      }
      return Some(Str(v.text));
    }
    if v.Number? {
      return Some(Num(v.num));
    }
    if v.Bool? {
      return Some(Flag(v.flag));
    }
    if v.Array? && |v.items| <= 1000 {
      r := StringsAt(c, x, v.items, key);
      return;
    }
    c.Bad(key, NotAParamValue);
    return None;
  }

  method NestedAt(c: Ctx, x: Outside, v: Json, key: string) returns (inner: map<string, Leaf>)
    requires v.Object?
    modifies c
    ensures Reports(|old(c.problems)|, |c.problems|, NestedOk(x, v))
    ensures NestedOk(x, v) ==> inner == NestedOf(v)
  {
    hide LeafOk, LeafOf;
    inner := map[];
    for i := 0 to |v.keys|
      invariant Reports(|old(c.problems)|, |c.problems|,
                        forall j :: 0 <= j < i ==> !Get(v, v.keys[j]).Object? && LeafOk(x, Get(v, v.keys[j])))
      invariant |c.problems| == |old(c.problems)| ==> forall k :: k in inner <==> k in v.keys[..i]
      invariant forall k :: k in inner ==> inner[k] == LeafOf(Get(v, k))
    {
      var name := v.keys[i];
      var item := Get(v, name);
      if item.Object? {
        c.Bad(key + "." + SafeKey(name), TooDeep);
      } else {
        var leaf := LeafAt(c, x, item, key + "." + SafeKey(name));
        if leaf.Some? {
          inner := inner[name := leaf.value];
        }
      }
    }
    WholePrefix(v.keys);
  }

  method ParamAt(c: Ctx, x: Outside, connector: Json, params: Json, name: string, key: string)
    returns (r: Option<Param>)
    modifies c
    ensures Reports(|old(c.problems)|, |c.problems|, ParamOk(x, connector, params, name))
    ensures ParamOk(x, connector, params, name) ==> r == Some(ParamOf(Get(params, name)))
  {
    hide LeafOk, NestedOk;
    var v := Get(params, name);
    if IsAwsLocation(connector, name) {
      if !v.Text? {
        c.Bad(key, NotAString);
        return None;
      }
      var why := x.awsProblem(name, v.text, ExportName(params));
      if why.Some? {
        c.Bad(key, AwsLocation(why.value));
        return None;
      }
      return Some(Single(Str(v.text)));
    }
    if v.Object? {
      var inner := NestedAt(c, x, v, key);
      return Some(Nested(inner));
    }
    var leaf := LeafAt(c, x, v, key);
    return if leaf.Some? then Some(Single(leaf.value)) else None;
  }

  method ParamsAt(c: Ctx, x: Outside, o: Json, key: string) returns (params: map<string, Param>)
    modifies c
    ensures Reports(|old(c.problems)|, |c.problems|, ParamsOk(x, o))
    ensures ParamsOk(x, o) ==> params == ParamsOf(Get(o, "params"))
  {
    hide ParamOk, ParamOf;
    params := map[];
    if !Has(o, "params") {
      return;
    }
    var p := Get(o, "params");
    if !p.Object? || |p.keys| > 100 {
      c.Bad(key, NotParams);
      return;
    }
    for i := 0 to |p.keys|
      invariant Reports(|old(c.problems)|, |c.problems|,
                        forall j :: 0 <= j < i ==> ParamOk(x, Get(o, "connector"), p, p.keys[j]))
      invariant |c.problems| == |old(c.problems)| ==> forall k :: k in params <==> k in p.keys[..i]
      invariant |c.problems| == |old(c.problems)| ==> forall k :: k in params ==> params[k] == ParamOf(Get(p, k))
    {
      var name := p.keys[i];
      var param := ParamAt(c, x, Get(o, "connector"), p, name, key + "." + SafeKey(name));
      if param.Some? {
        params := params[name := param.value];
      }
    }
    WholePrefix(p.keys);
  }

  method SecretRefAt(c: Ctx, x: Outside, o: Json, key: string) returns (r: Option<string>)
    modifies c
    ensures Reports(|old(c.problems)|, |c.problems|, SecretRefOk(x, o))
    ensures SecretRefOk(x, o) ==> r == if Has(o, "secretRef") then Some(Word(Get(o, "secretRef"))) else None
  {
    hide IsSecretRef;
    r := None;
    if Has(o, "secretRef") {
      var v := Get(o, "secretRef");
      SecretRefText(v);
      if IsSecretRef(v) && !x.looksLikeCredential(v.text) {
        r := Some(v.text);
      } else {
        c.Bad(key, NotASecretName);
      }
    }
  }

  lemma SecretRefText(v: Json)
    ensures IsSecretRef(v) ==> v.Text?
  {
  }

  /** An object whose only allowed key is `kind`, and that has it, has exactly one key. */
  lemma OnlyKind(o: Json)
    requires OnlyKeys(o, RETRIEVAL_KEYS) && Has(o, "kind")
    requires !Has(o, "connector") && !Has(o, "params") && !Has(o, "secretRef")
    ensures |o.keys| == 1
  {
    forall i | 0 <= i < |o.keys|
      ensures o.keys[i] == "kind"
    {
      assert o.keys[i] in RETRIEVAL_KEYS && o.keys[i] in o.keys;
    }
    var keys: seq<string> := o.keys;
    assert Distinct(keys);
    assert keys[0] == keys[|keys| - 1];
  }

  method FileDropAt(c: Ctx, o: Json, key: string)
    modifies c
    ensures Reports(|old(c.problems)|, |c.problems|, !Has(o, "connector") && !Has(o, "params") && !Has(o, "secretRef"))
  {
    if Has(o, "connector") { c.Bad(KeyAt(key, "connector"), OnlyWithKindManaged); }
    if Has(o, "params") { c.Bad(KeyAt(key, "params"), OnlyWithKindManaged); }
    if Has(o, "secretRef") { c.Bad(KeyAt(key, "secretRef"), OnlyWithKindManaged); }
  }

  method RetrievalAt(c: Ctx, x: Outside, v: Json, key: string) returns (r: Option<Retrieval>)
    modifies c
    ensures Reports(|old(c.problems)|, |c.problems|, RetrievalOk(x, v))
    ensures RetrievalOk(x, v) ==> r == Some(RetrievalOf(v))
  {
    hide OnlyKeys, ParamsOk, ParamsOf, SecretRefOk;
    if v == Absent {
      return Some(FileDrop);
    }
    NotAnObject(v, RETRIEVAL_KEYS);
    var block := ObjectOf(c, v, key, RETRIEVAL_KEYS);
    if block.None? {
      return None;
    }
    var kind := WordAt(c, v, key, "kind", ["file-drop", "managed"]);
    if kind == Some("file-drop") {
      FileDropAt(c, v, key);
      if RetrievalOk(x, v) {
        OnlyKind(v);
      }
      return if |v.keys| == 1 then Some(FileDrop) else None;
    }
    if kind != Some("managed") {
      return None;
    }
    var before := |c.problems|;
    var connector := WordAt(c, v, key, "connector", CONNECTORS);
    var params := ParamsAt(c, x, v, KeyAt(key, "params"));
    var secretRef := SecretRefAt(c, x, v, KeyAt(key, "secretRef"));
    if |c.problems| > before || connector.None? {
      return None;
    }
    return Some(Managed(connector.value, params, secretRef));
  }
}
