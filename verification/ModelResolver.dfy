/** The model resolver (proxy.go:79-195). */
module ModelResolver {
  import opened Basics
  import opened SseParser

  datatype Model = Model(key: string, displayName: string, enable: bool, maximumWindow: nat, effectiveWindow: nat)

  datatype Resolver = Resolver(
    byKey: map<string, Model>, byName: map<string, Model>,
    mapping: Option<map<string, string>>, def: string, oneM: string)

  const PREFIX := "qoder-anthropic/"
  const SUFFIX := "[1m]"
  const LARGE := 900000

  function NameOf(m: Model): string { TrimSpace(m.displayName) }

  predicate HasSuffix(s: string, suffix: string) { |s| >= |suffix| && s[|s| - |suffix|..] == suffix }

  function WithoutPrefix(s: string): string { if PREFIX <= s then s[|PREFIX|..] else s }

  // ---------- construction ----------

  /** Models under their keys; of two with one key the later counts. */
  function ByKey(catalog: seq<Model>): (r: map<string, Model>)
    ensures forall k :: k in r ==> r[k].key == k
  {
    if catalog == [] then map[]
    else
      var m := catalog[|catalog| - 1];
      ByKey(catalog[..|catalog| - 1])[m.key := m]
  }

  /** The model may go by its name: no other has it, and it is no other model's key. */
  predicate OwnsName(byKey: map<string, Model>, k: string)
    requires k in byKey
  {
    var name := NameOf(byKey[k]);
    && name != ""
    && (forall other :: other in byKey && NameOf(byKey[other]) == name ==> other == k)
    && (name in byKey ==> name == k)
  }

  /** The names are exactly those of the models that own theirs. */
  predicate NamesRight(byKey: map<string, Model>, byName: map<string, Model>) {
    && (forall k :: k in byKey && OwnsName(byKey, k) ==>
          NameOf(byKey[k]) in byName && byName[NameOf(byKey[k])] == byKey[k])
    && (forall name :: name in byName ==>
          byName[name].key in byKey && byKey[byName[name].key] == byName[name]
          && OwnsName(byKey, byName[name].key) && NameOf(byName[name]) == name)
  }

  function Holders(byKey: map<string, Model>, keys: set<string>, name: string): set<string> {
    set k | k in keys && k in byKey && NameOf(byKey[k]) == name
  }

  function CountOf(counts: map<string, nat>, name: string): nat { if name in counts then counts[name] else 0 }

  lemma HoldersAdd(byKey: map<string, Model>, keys: set<string>, k: string, name: string)
    requires k in byKey && k !in keys
    ensures |Holders(byKey, keys + {k}, name)|
         == |Holders(byKey, keys, name)| + (if NameOf(byKey[k]) == name then 1 else 0)
  {
    hide NameOf;
    if NameOf(byKey[k]) == name {
      assert Holders(byKey, keys + {k}, name) == Holders(byKey, keys, name) + {k};
    } else {
      assert Holders(byKey, keys + {k}, name) == Holders(byKey, keys, name);
    }
  }

  lemma OneHolder(byKey: map<string, Model>, k: string)
    requires k in byKey
    ensures |Holders(byKey, byKey.Keys, NameOf(byKey[k]))| == 1
       <==> forall other :: other in byKey && NameOf(byKey[other]) == NameOf(byKey[k]) ==> other == k
  {
    hide NameOf;
    var h := Holders(byKey, byKey.Keys, NameOf(byKey[k]));
    assert k in h;
    if forall other :: other in byKey && NameOf(byKey[other]) == NameOf(byKey[k]) ==> other == k {
      assert h == {k};
    } else {
      var other :| other in byKey && NameOf(byKey[other]) == NameOf(byKey[k]) && other != k;
      assert |h - {k}| >= 1 by {
        assert other in h - {k};
      }
    }
  }

  /** How many models go by each name, the models visited in any order. */
  method CountNames(byKey: map<string, Model>) returns (counts: map<string, nat>)
    ensures forall name :: name != "" ==> CountOf(counts, name) == |Holders(byKey, byKey.Keys, name)|
  {
    hide NameOf;
    counts := map[];
    var left := byKey.Keys;
    ghost var done: set<string> := {};
    assert forall name :: Holders(byKey, {}, name) == {};
    while left != {}
      invariant left <= byKey.Keys && done == byKey.Keys - left
      invariant forall name :: name != "" ==> CountOf(counts, name) == |Holders(byKey, done, name)|
      decreases left
    {
      var k :| k in left;
      var name := NameOf(byKey[k]);
      forall n
        ensures |Holders(byKey, done + {k}, n)| == |Holders(byKey, done, n)| + (if name == n then 1 else 0)
      {
        HoldersAdd(byKey, done, k, n);
      }
      if name != "" {
        counts := counts[name := CountOf(counts, name) + 1];
      }
      left := left - {k};
      done := done + {k};
    }
    assert done == byKey.Keys;
  }

  /** The names are entered in any order; the outcome does not depend on it. */
  method EnterNames(byKey: map<string, Model>, counts: map<string, nat>) returns (byName: map<string, Model>)
    requires forall k :: k in byKey ==> byKey[k].key == k
    requires forall name :: name != "" ==> CountOf(counts, name) == |Holders(byKey, byKey.Keys, name)|
    ensures NamesRight(byKey, byName)
  {
    hide NameOf;
    byName := map[];
    var left := byKey.Keys;
    while left != {}
      invariant left <= byKey.Keys
      invariant forall k :: k in byKey && k !in left && OwnsName(byKey, k) ==>
        NameOf(byKey[k]) in byName && byName[NameOf(byKey[k])] == byKey[k]
      invariant forall name :: name in byName ==>
        byName[name].key in byKey && byKey[byName[name].key] == byName[name]
        && OwnsName(byKey, byName[name].key) && NameOf(byName[name]) == name
      decreases left
    {
      var k :| k in left;
      left := left - {k};
      var m := byKey[k];
      var name := NameOf(m);
      OneHolder(byKey, k);
      if name == "" || CountOf(counts, name) != 1 {
        continue;
      }
      if name in byKey && byKey[name].key != m.key {
        continue;
      }
      assert OwnsName(byKey, k);
      byName := byName[name := m];
    }
  }

  method NewModelResolver(catalog: seq<Model>, mapping: Option<map<string, string>>, def: string, oneM: string)
    returns (r: Resolver)
    ensures r.byKey == ByKey(catalog) && NamesRight(r.byKey, r.byName)
    ensures r.mapping == mapping
    ensures r.def == (if def == "" then "auto" else def) && r.oneM == (if oneM == "" then "ultimate" else oneM)
  {
    var byKey: map<string, Model> := map[];
    var i := 0;
    while i < |catalog|
      invariant 0 <= i <= |catalog|
      invariant byKey == ByKey(catalog[..i])
    {
      assert catalog[..i + 1][..i] == catalog[..i];
      byKey := byKey[catalog[i].key := catalog[i]];
      i := i + 1;
    }
    assert catalog[..i] == catalog;
    var counts := CountNames(byKey);
    var byName := EnterNames(byKey, counts);
    r := Resolver(byKey, byName, mapping, def, oneM);
    if r.def == "" {
      r := r.(def := "auto");
    }
    if r.oneM == "" {
      r := r.(oneM := "ultimate");
    }
  }

  /** Whatever the order of the visits, the names come out the same. */
  lemma NamesUnique(byKey: map<string, Model>, x: map<string, Model>, y: map<string, Model>)
    requires NamesRight(byKey, x) && NamesRight(byKey, y)
    ensures x == y
  {
    hide NameOf, OwnsName;
    assert forall name :: name in x ==> name in y && x[name] == y[name];
    assert forall name :: name in y ==> name in x;
  }

  // ---------- lookups ----------

  function ModelByIdentifier(r: Resolver, identifier: string): Option<Model> {
    if identifier in r.byKey then Some(r.byKey[identifier])
    else if identifier in r.byName then Some(r.byName[identifier])
    else None
  }

  function PublicId(r: Resolver, m: Model): string {
    var name := NameOf(m);
    if HasSuffix(name, SUFFIX) then m.key
    else if name in r.byName && r.byName[name].key == m.key then name
    else m.key
  }

  function ByKeyOrSynthetic(r: Resolver, key: string): Model {
    match ModelByIdentifier(r, key)
    case Some(m) => m
    case None => Model(key, "", true, 0, 0)
  }

  /** The key a mapping gives for a name, "" if it gives none. */
  function MappedKey(r: Resolver, name: string): string {
    if r.mapping.None? then ""
    else if name in r.mapping.value then r.mapping.value[name]
    else if "*" in r.mapping.value then r.mapping.value["*"]
    else ""
  }

  predicate Wants1M(clientModel: string) { HasSuffix(WithoutPrefix(clientModel), SUFFIX) }

  /** What is looked up: the client's name without prefix and suffix. */
  function BareName(clientModel: string): string {
    var stripped := WithoutPrefix(clientModel);
    if Wants1M(clientModel) then stripped[..|stripped| - |SUFFIX|] else stripped
  }

  function Resolve(r: Resolver, lockedDown: bool, clientModel: string): Option<Model> {
    var want1M, name := Wants1M(clientModel), BareName(clientModel);
    if lockedDown then
      match ModelByIdentifier(r, name)
      case None => None
      case Some(m) =>
        if !m.enable || (want1M && m.maximumWindow < LARGE) then None
        else Some(if want1M then m.(effectiveWindow := m.maximumWindow) else m)
    else
      var mapped := MappedKey(r, name);
      var key :=
        if mapped != "" then mapped
        else match ModelByIdentifier(r, name)
             case Some(m) => m.key
             case None => r.def;
      var m := ByKeyOrSynthetic(r, key);
      if want1M && m.maximumWindow < LARGE && ByKeyOrSynthetic(r, r.oneM).maximumWindow >= LARGE
      then Some(ByKeyOrSynthetic(r, r.oneM))
      else Some(m)
  }

  predicate Built(r: Resolver) {
    (forall k :: k in r.byKey ==> r.byKey[k].key == k) && NamesRight(r.byKey, r.byName)
  }

  /** The identifiers a model is looked up by carry neither the prefix nor, as keys, the suffix. */
  predicate PlainIds(m: Model) {
    !(PREFIX <= m.key) && !(PREFIX <= NameOf(m)) && !HasSuffix(m.key, SUFFIX)
  }

  /** A public id finds its model again. */
  lemma PublicIdFinds(r: Resolver, k: string)
    requires Built(r) && k in r.byKey
    ensures ModelByIdentifier(r, PublicId(r, r.byKey[k])) == Some(r.byKey[k])
  {
    hide NameOf, HasSuffix;
  }

  /** An identifier finds a model under its key. */
  lemma FoundByKey(r: Resolver, identifier: string)
    requires Built(r) && ModelByIdentifier(r, identifier).Some?
    ensures var m := ModelByIdentifier(r, identifier).value;
      m.key in r.byKey && r.byKey[m.key] == m && ByKeyOrSynthetic(r, m.key) == m
  {
    hide NameOf;
  }

  // ---------- when a name leads to a model ----------

  /** The identifier is the model's key, or no model's key and the name the model alone has. */
  predicate Names(byKey: map<string, Model>, identifier: string, k: string) {
    && k in byKey
    && (identifier == k || (identifier !in byKey && OwnsName(byKey, k) && NameOf(byKey[k]) == identifier))
  }

  /** A model of the catalogue with the large context goes by that identifier. */
  predicate NamesLarge(byKey: map<string, Model>, identifier: string) {
    exists k :: k in byKey && Names(byKey, identifier, k) && byKey[k].maximumWindow >= 900000
  }

  predicate NamesNone(byKey: map<string, Model>, identifier: string) {
    forall k :: k in byKey ==> !Names(byKey, identifier, k)
  }

  /** What the mapping says of a name: its own entry, or the one for "*" if it has none. */
  predicate MappedTo(mapping: map<string, string>, name: string, key: string) {
    || (name in mapping && mapping[name] == key)
    || (name !in mapping && "*" in mapping && mapping["*"] == key)
  }

  /** The identifier asked for instead of the name: what the mapping says unless that is empty,
      else the name itself, or the default where the name is nobody's. */
  ghost predicate AsksFor(r: Resolver, name: string, identifier: string) {
    if exists key :: r.mapping.Some? && MappedTo(r.mapping.value, name, key) && key != ""
    then MappedTo(r.mapping.value, name, identifier)
    else identifier == if NamesNone(r.byKey, name) then r.def else name
  }

  lemma FoundIffNamed(r: Resolver, identifier: string, k: string)
    requires Built(r)
    ensures k in r.byKey && ModelByIdentifier(r, identifier) == Some(r.byKey[k]) <==> Names(r.byKey, identifier, k)
  {
    hide NameOf;
  }

  lemma KeyIffNamed(r: Resolver, identifier: string, k: string)
    requires Built(r) && k in r.byKey
    ensures ByKeyOrSynthetic(r, identifier).key == k <==> Names(r.byKey, identifier, k)
  {
    hide NameOf, NamesRight, OwnsName, Names;
    FoundIffNamed(r, identifier, k);
    if ModelByIdentifier(r, identifier).Some? {
      FoundByKey(r, identifier);
    }
  }

  lemma NoneIffNobody(r: Resolver, identifier: string)
    requires Built(r)
    ensures ModelByIdentifier(r, identifier).None? <==> NamesNone(r.byKey, identifier)
  {
    hide NameOf, NamesRight, OwnsName, Names;
    forall k | k in r.byKey
      ensures ModelByIdentifier(r, identifier) == Some(r.byKey[k]) <==> Names(r.byKey, identifier, k)
    {
      FoundIffNamed(r, identifier, k);
    }
    if ModelByIdentifier(r, identifier).Some? {
      FoundByKey(r, identifier);
    }
  }

  lemma LargeIffNamed(r: Resolver, identifier: string)
    requires Built(r)
    ensures ByKeyOrSynthetic(r, identifier).maximumWindow >= 900000 <==> NamesLarge(r.byKey, identifier)
  {
    hide NameOf, NamesRight, OwnsName, Names;
    forall k | k in r.byKey
      ensures ModelByIdentifier(r, identifier) == Some(r.byKey[k]) <==> Names(r.byKey, identifier, k)
    {
      FoundIffNamed(r, identifier, k);
    }
    if ModelByIdentifier(r, identifier).Some? {
      FoundByKey(r, identifier);
    }
  }

  lemma AskedFor(r: Resolver, name: string, identifier: string)
    requires Built(r) && AsksFor(r, name, identifier)
    ensures identifier == if MappedKey(r, name) != "" then MappedKey(r, name)
                          else if ModelByIdentifier(r, name).Some? then name
                          else r.def
  {
    NoneIffNobody(r, name);
    hide NamesRight, NamesNone, ModelByIdentifier;
    if MappedKey(r, name) != "" {
      assert MappedTo(r.mapping.value, name, MappedKey(r, name));
    }
  }

  /** Outside lockdown: the identifier asked for names the model, unless the large context is wished
      for, what is asked for lacks it and a model kept for it has it; then that one's name does. */
  lemma ResolvesIff(r: Resolver, clientModel: string, identifier: string, k: string)
    requires Built(r) && k in r.byKey && AsksFor(r, BareName(clientModel), identifier)
    ensures var answer := Resolve(r, false, clientModel);
      answer.Some? && (answer.value.key == k <==>
        if Wants1M(clientModel) && !NamesLarge(r.byKey, identifier) && NamesLarge(r.byKey, r.oneM)
        then Names(r.byKey, r.oneM, k)
        else Names(r.byKey, identifier, k))
  {
    hide NameOf, NamesRight, OwnsName, Names, NamesLarge, AsksFor, MappedKey, HasSuffix, WithoutPrefix;
    var name := BareName(clientModel);
    AskedFor(r, name, identifier);
    LargeIffNamed(r, identifier);
    LargeIffNamed(r, r.oneM);
    KeyIffNamed(r, identifier, k);
    KeyIffNamed(r, r.oneM, k);
    if ModelByIdentifier(r, name).Some? {
      FoundByKey(r, name);
    }
  }

  lemma FrontIsCut(clientModel: string)
    ensures clientModel == (if PREFIX <= clientModel then PREFIX else "") + WithoutPrefix(clientModel)
  {}

  lemma BackIsCut(stripped: string)
    ensures HasSuffix(stripped, SUFFIX) ==> stripped == stripped[..|stripped| - 4] + SUFFIX
    ensures !HasSuffix(stripped, SUFFIX) ==> |stripped| < 4 || stripped[|stripped| - 4..] != SUFFIX
  {}

  /** A client's name is the bare name between the prefix and the suffix, each cut off where it is there. */
  lemma NameIsCut(clientModel: string)
    ensures PREFIX == "qoder-anthropic/" && SUFFIX == "[1m]"
    ensures var front := if PREFIX <= clientModel then PREFIX else "";
      var back := if Wants1M(clientModel) then SUFFIX else "";
      var bare := BareName(clientModel);
      clientModel == front + bare + back && (!Wants1M(clientModel) ==> |bare| < 4 || bare[|bare| - 4..] != SUFFIX)
  {
    FrontIsCut(clientModel);
    BackIsCut(WithoutPrefix(clientModel));
    hide WithoutPrefix, HasSuffix;
    var front, stripped := if PREFIX <= clientModel then PREFIX else "", WithoutPrefix(clientModel);
    if Wants1M(clientModel) {
      assert front + (stripped[..|stripped| - 4] + SUFFIX) == front + stripped[..|stripped| - 4] + SUFFIX;
    } else {
      assert front + stripped + "" == front + stripped;
    }
  }

  /** The answer is the model itself, in lockdown with the whole window where the large context is wished
      for; outside lockdown a key that no model has is answered by a model made up for it. */
  lemma AnswerIsModel(r: Resolver, clientModel: string, k: string)
    requires Built(r) && k in r.byKey
    ensures var locked := Resolve(r, true, clientModel);
      locked.Some? && locked.value.key == k ==>
        locked.value
          == if Wants1M(clientModel) then r.byKey[k].(effectiveWindow := r.byKey[k].maximumWindow) else r.byKey[k]
    ensures var answer := Resolve(r, false, clientModel);
      && answer.Some?
      && (answer.value.key == k ==> answer.value == r.byKey[k])
      && (answer.value.key !in r.byKey ==> answer.value == Model(answer.value.key, "", true, 0, 0))
  {
    hide NameOf, HasSuffix, WithoutPrefix, OwnsName;
  }

  /** Every name is replaced by exactly one identifier. */
  lemma AsksForOne(r: Resolver, name: string)
    ensures exists identifier :: AsksFor(r, name, identifier)
    ensures forall x, y :: AsksFor(r, name, x) && AsksFor(r, name, y) ==> x == y
  {
    hide NamesNone;
    if exists key :: r.mapping.Some? && MappedTo(r.mapping.value, name, key) && key != "" {
      var key :| MappedTo(r.mapping.value, name, key) && key != "";
      assert AsksFor(r, name, key);
    } else {
      assert AsksFor(r, name, if NamesNone(r.byKey, name) then r.def else name);
    }
  }

  /** In lockdown: the bare name names the model, it is enabled and has the context wished for. */
  lemma LockedResolvesIff(r: Resolver, clientModel: string, k: string)
    requires Built(r) && k in r.byKey
    ensures var answer := Resolve(r, true, clientModel);
      answer.Some? && answer.value.key == k <==>
        && Names(r.byKey, BareName(clientModel), k) && r.byKey[k].enable
        && (Wants1M(clientModel) ==> r.byKey[k].maximumWindow >= 900000)
  {
    hide NameOf, NamesRight, OwnsName, Names, HasSuffix, WithoutPrefix;
    var name := BareName(clientModel);
    FoundIffNamed(r, name, k);
    if ModelByIdentifier(r, name).Some? {
      FoundByKey(r, name);
    }
  }

  /** The public id of a model is the name it alone has, or else its key. */
  lemma PublicIdIs(r: Resolver, k: string)
    requires Built(r) && k in r.byKey
    ensures PublicId(r, r.byKey[k])
         == if OwnsName(r.byKey, k) && !HasSuffix(NameOf(r.byKey[k]), SUFFIX) then NameOf(r.byKey[k]) else k
  {
    hide NameOf, HasSuffix;
  }

  /**
   * Exactly when a public id leads back to the model's key, whatever the catalogue and
   * the mapping, told from the catalogue, the mapping and the id alone.
   */
  lemma PublicIdResolvesIff(r: Resolver, k: string, identifier: string)
    requires Built(r) && k in r.byKey && AsksFor(r, BareName(PublicId(r, r.byKey[k])), identifier)
    ensures var m := r.byKey[k];
      var id := if OwnsName(r.byKey, k) && !HasSuffix(NameOf(m), SUFFIX) then NameOf(m) else k;
      var answer, locked := Resolve(r, false, PublicId(r, m)), Resolve(r, true, PublicId(r, m));
      && (answer.Some? && answer.value.key == k <==>
            if Wants1M(id) && !NamesLarge(r.byKey, identifier) && NamesLarge(r.byKey, r.oneM)
            then Names(r.byKey, r.oneM, k)
            else Names(r.byKey, identifier, k))
      && (locked.Some? && locked.value.key == k <==>
            Names(r.byKey, BareName(id), k) && m.enable && (Wants1M(id) ==> m.maximumWindow >= LARGE))
  {
    hide NameOf, NamesRight, OwnsName, Names, NamesLarge, NamesNone, HasSuffix, PublicId, BareName, Wants1M, Resolve,
         AsksFor;
    PublicIdIs(r, k);
    ResolvesIff(r, PublicId(r, r.byKey[k]), identifier, k);
    LockedResolvesIff(r, PublicId(r, r.byKey[k]), k);
  }

  /** With plain identifiers nothing is cut off. */
  lemma PlainIsBare(r: Resolver, m: Model)
    requires PlainIds(m)
    ensures BareName(PublicId(r, m)) == PublicId(r, m) && !Wants1M(PublicId(r, m))
  {
    hide NameOf, HasSuffix;
  }

  /** So where no mapping steps in, the public id of every model with plain identifiers resolves to that model. */
  lemma PublicIdResolves(r: Resolver, k: string)
    requires Built(r) && k in r.byKey && PlainIds(r.byKey[k])
    requires MappedKey(r, PublicId(r, r.byKey[k])) == ""
    ensures Resolve(r, false, PublicId(r, r.byKey[k])) == Some(r.byKey[k])
  {
    hide NameOf, HasSuffix, PlainIds, PublicId, BareName, Wants1M, NamesRight;
    PlainIsBare(r, r.byKey[k]);
    PublicIdFinds(r, k);
  }

  /** In lockdown, where mappings are not asked, it resolves to that model if it is enabled. */
  lemma PublicIdInLockdown(r: Resolver, k: string)
    requires Built(r) && k in r.byKey && PlainIds(r.byKey[k])
    ensures Resolve(r, true, PublicId(r, r.byKey[k])) == if r.byKey[k].enable then Some(r.byKey[k]) else None
  {
    hide NameOf, HasSuffix, PlainIds, PublicId, BareName, Wants1M, NamesRight;
    PlainIsBare(r, r.byKey[k]);
    PublicIdFinds(r, k);
  }

  /** Two models never share a public id. */
  lemma PublicIdsDiffer(r: Resolver, k: string, l: string)
    requires Built(r) && k in r.byKey && l in r.byKey && k != l
    ensures PublicId(r, r.byKey[k]) != PublicId(r, r.byKey[l])
  {
    hide NameOf, HasSuffix, PublicId;
    PublicIdFinds(r, k);
    PublicIdFinds(r, l);
  }
}
