/**
 The recursive JSON merge behind CODEX_CONFIG, and what the built configuration means:
 for every path, the last source that speaks about it decides.
 */
module CodexConfig {
  import opened Basics

  /** A JSON value; arrays and scalars are atoms, since the merge never looks inside them. */
  datatype Json = Obj(fields: map<string, Json>) | Atom(value: string)

  type Path = seq<string>

  const SANDBOX: string := "sandbox_workspace_write"
  const NETWORK: string := "network_access"
  const TRUE: Json := Atom("true")

  // ---- merge ----

  /** Objects merge key by key; on any other pair of shapes the overlay wins. */
  function Merge(base: Json, overlay: Json): Json
    decreases overlay
  {
    if base.Obj? && overlay.Obj? then
      Obj(map k | k in base.fields.Keys + overlay.fields.Keys ::
            if k !in overlay.fields then base.fields[k]
            else if k in base.fields then Merge(base.fields[k], overlay.fields[k])
            else overlay.fields[k])
    else overlay
  }

  /** The loop of deep_merge: it takes the overlay's entries one by one, in any order. */
  method DeepMerge(base: Json, overlay: Json) returns (merged: Json)
    requires base.Obj? && overlay.Obj?
    ensures merged == Merge(base, overlay)
    decreases overlay
  {
    var fields := base.fields;
    var rest := overlay.fields.Keys;
    while rest != {}
      invariant rest <= overlay.fields.Keys
      invariant fields.Keys == base.fields.Keys + (overlay.fields.Keys - rest)
      invariant forall k :: k in fields ==>
        fields[k] == if k in overlay.fields && k !in rest then Merge(base, overlay).fields[k] else base.fields[k]
      decreases rest
    {
      var k :| k in rest;
      var v := overlay.fields[k];
      if k in fields && fields[k].Obj? && v.Obj? {
        var inner := DeepMerge(fields[k], v);
        fields := fields[k := inner];
      } else {
        fields := fields[k := v];
      }
      rest := rest - {k};
    }
    merged := Obj(fields);
    assert fields == Merge(base, overlay).fields;
  }

  // ---- meaning: leaves by path ----

  /** The atom at a path. */
  function Leaf(j: Json, p: Path): Option<string>
    decreases |p|
  {
    match j
    case Atom(v) => if p == [] then Some(v) else None
    case Obj(f) => if p != [] && p[0] in f then Leaf(f[p[0]], p[1..]) else None
  }

  /** The value defines this path, or has an atom at a prefix of it. */
  predicate Speaks(j: Json, p: Path)
    decreases |p|
  {
    p == [] || j.Atom? || (p[0] in j.fields && Speaks(j.fields[p[0]], p[1..]))
  }

  lemma {:induction false} SilentHasNoLeaf(j: Json, p: Path)
    requires !Speaks(j, p)
    ensures Leaf(j, p).None?
    decreases |p|
  {
    if p[0] in j.fields {
      SilentHasNoLeaf(j.fields[p[0]], p[1..]);
    }
  }

  /** Merge meaning: the overlay decides every path it speaks about, the base every other. */
  lemma {:induction false} MergeLeaf(base: Json, overlay: Json, p: Path)
    requires base.Obj? || overlay.Obj?
    ensures Leaf(Merge(base, overlay), p) == if Speaks(overlay, p) then Leaf(overlay, p) else Leaf(base, p)
    decreases |p|
  {
    if base.Obj? && overlay.Obj? && p != [] {
      var k := p[0];
      if k in overlay.fields && k in base.fields && (base.fields[k].Obj? || overlay.fields[k].Obj?) {
        MergeLeaf(base.fields[k], overlay.fields[k], p[1..]);
      } else if k in overlay.fields && !Speaks(overlay.fields[k], p[1..]) {
        SilentHasNoLeaf(overlay.fields[k], p[1..]);
      }
    } else if overlay.Obj? && !Speaks(overlay, p) {
      SilentHasNoLeaf(overlay, p);
    }
  }

  /**
   Objects merge to the union of their keys; a key on one side only keeps its value; on any other
   pair the overlay stays.
   */
  lemma MergeFields(base: Json, overlay: Json, k: string)
    ensures !(base.Obj? && overlay.Obj?) ==> Merge(base, overlay) == overlay
    ensures base.Obj? && overlay.Obj? ==>
      var m := Merge(base, overlay);
      && m.Obj? && m.fields.Keys == base.fields.Keys + overlay.fields.Keys
      && (k in base.fields && k !in overlay.fields ==> m.fields[k] == base.fields[k])
      && (k !in base.fields && k in overlay.fields ==> m.fields[k] == overlay.fields[k])
      && (k in base.fields && k in overlay.fields ==> m.fields[k] == Merge(base.fields[k], overlay.fields[k]))
  {
  }

  /** Merging a value into itself changes nothing. */
  lemma {:induction false} MergeIdempotent(j: Json)
    ensures Merge(j, j) == j
  {
    if j.Obj? {
      forall k | k in j.fields ensures Merge(j.fields[k], j.fields[k]) == j.fields[k] {
        MergeIdempotent(j.fields[k]);
      }
      assert Merge(j, j).fields == j.fields;
    }
  }

  /** Merging the same overlay again changes nothing. */
  lemma {:induction false} MergeAgain(base: Json, overlay: Json)
    ensures Merge(Merge(base, overlay), overlay) == Merge(base, overlay)
    decreases overlay
  {
    if base.Obj? && overlay.Obj? {
      var m := Merge(base, overlay);
      forall k | k in m.fields ensures Merge(m, overlay).fields[k] == m.fields[k] {
        if k in overlay.fields && k in base.fields {
          MergeAgain(base.fields[k], overlay.fields[k]);
        } else if k in overlay.fields {
          MergeIdempotent(overlay.fields[k]);
        }
      }
      assert Merge(m, overlay).fields == m.fields;
    } else {
      MergeIdempotent(overlay);
    }
  }

  // ---- many sources ----

  function MergeAll(sources: seq<Json>): Json
    requires sources != []
  {
    if |sources| == 1 then sources[0] else Merge(MergeAll(sources[..|sources| - 1]), sources[|sources| - 1])
  }

  predicate AllObjects(sources: seq<Json>) {
    forall i :: 0 <= i < |sources| ==> sources[i].Obj?
  }

  lemma {:induction false} MergeAllObj(sources: seq<Json>)
    requires sources != [] && AllObjects(sources)
    ensures MergeAll(sources).Obj?
  {
    if |sources| > 1 {
      MergeAllObj(sources[..|sources| - 1]);
    }
  }

  /** The reference: ask the sources from last to first, and believe the first that speaks. */
  function LastWord(sources: seq<Json>, p: Path): Option<string> {
    if sources == [] then None
    else if Speaks(sources[|sources| - 1], p) then Leaf(sources[|sources| - 1], p)
    else LastWord(sources[..|sources| - 1], p)
  }

  lemma {:induction false} MergeAllLeaf(sources: seq<Json>, p: Path)
    requires sources != [] && AllObjects(sources)
    ensures Leaf(MergeAll(sources), p) == LastWord(sources, p)
  {
    var last := sources[|sources| - 1];
    if |sources| == 1 {
      if !Speaks(last, p) {
        SilentHasNoLeaf(last, p);
      }
      assert LastWord(sources[..0], p) == None;
    } else {
      MergeAllObj(sources[..|sources| - 1]);
      MergeAllLeaf(sources[..|sources| - 1], p);
      MergeLeaf(MergeAll(sources[..|sources| - 1]), last, p);
    }
  }

  /** A source's leaf is the last word when no later source speaks about its path. */
  lemma {:induction false} EarlierLeafKept(sources: seq<Json>, i: nat, p: Path)
    requires i < |sources| && Leaf(sources[i], p).Some?
    requires forall j :: i < j < |sources| ==> !Speaks(sources[j], p)
    ensures LastWord(sources, p) == Leaf(sources[i], p)
  {
    var last := |sources| - 1;
    if i == last {
      if !Speaks(sources[i], p) {
        SilentHasNoLeaf(sources[i], p);
      }
    } else {
      EarlierLeafKept(sources[..last], i, p);
    }
  }

  // ---- the environment value ----

  /** What a raw environment string parses to. */
  datatype Parsed = Invalid | Value(j: Json)

  datatype Error =
    | EntryNotJson(first: bool)
    | EntryNotObject(first: bool)
    | ParentNotJson
    | ParentNotObject
    | SandboxNotObject

  datatype Result = Absent | Built(config: Json) | Failed(error: Error)

  const CODEX_CONFIG: string := "CODEX_CONFIG"

  /** The CODEX_CONFIG entries, in order. */
  function Entries(env: seq<(string, Parsed)>): seq<Parsed> {
    if env == [] then []
    else Entries(env[..|env| - 1]) + (if env[|env| - 1].0 == CODEX_CONFIG then [env[|env| - 1].1] else [])
  }

  function Force(j: Json): Json
    requires j.Obj? && (SANDBOX in j.fields ==> j.fields[SANDBOX].Obj?)
  {
    var inner := if SANDBOX in j.fields then j.fields[SANDBOX].fields else map[];
    Obj(j.fields[SANDBOX := Obj(inner[NETWORK := TRUE])])
  }

  predicate IsObject(v: Parsed) {
    v.Value? && v.j.Obj?
  }

  /** Index of the first entry that is not an object, or the length. */
  function FirstBad(entries: seq<Parsed>): (k: nat)
    ensures k <= |entries|
    ensures k < |entries| ==> !IsObject(entries[k])
    ensures forall i :: 0 <= i < k ==> IsObject(entries[i])
  {
    if entries == [] then 0 else if !IsObject(entries[0]) then 0 else 1 + FirstBad(entries[1..])
  }

  function Objects(entries: seq<Parsed>): seq<Json>
    requires forall i :: 0 <= i < |entries| ==> IsObject(entries[i])
  {
    seq(|entries|, i requires 0 <= i < |entries| && IsObject(entries[i]) => entries[i].j)
  }

  /** All sources in merge order: the entries, then the parent environment. */
  function Sources(entries: seq<Parsed>, parent: Option<Parsed>): seq<Json>
    requires forall i :: 0 <= i < |entries| ==> IsObject(entries[i])
    requires parent.Some? ==> IsObject(parent.value)
  {
    Objects(entries) + (if parent.Some? then [parent.value.j] else [])
  }

  function Build(env: seq<(string, Parsed)>, parent: Option<Parsed>, generated: bool): Result {
    var entries := Entries(env);
    if !generated || entries == [] then Absent
    else
      var bad := FirstBad(entries);
      if bad < |entries| then
        Failed(if entries[bad].Invalid? then EntryNotJson(bad == 0) else EntryNotObject(bad == 0))
      else if parent.Some? && parent.value.Invalid? then Failed(ParentNotJson)
      else if parent.Some? && parent.value.j.Atom? then Failed(ParentNotObject)
      else
        var merged := MergeAll(Sources(entries, parent));
        if merged.Atom? || (SANDBOX in merged.fields && merged.fields[SANDBOX].Atom?) then Failed(SandboxNotObject)
        else Built(Force(merged))
  }

  /** The values of the CODEX_CONFIG entries, in order. */
  method CollectEntries(env: seq<(string, Parsed)>) returns (entries: seq<Parsed>)
    ensures entries == Entries(env)
  {
    entries := [];
    for i := 0 to |env|
      invariant entries == Entries(env[..i])
    {
      assert env[..i + 1][..i] == env[..i];
      if env[i].0 == CODEX_CONFIG {
        entries := entries + [env[i].1];
      }
    }
    assert env[..|env|] == env;
  }

  /** The fold over the parsed entries. */
  method MergeEntries(parsed: seq<Json>) returns (base: Json)
    requires parsed != [] && AllObjects(parsed)
    ensures base == MergeAll(parsed) && base.Obj?
  {
    base := parsed[0];
    for i := 1 to |parsed|
      invariant base == MergeAll(parsed[..i]) && base.Obj?
    {
      assert parsed[..i + 1][..i] == parsed[..i];
      base := DeepMerge(base, parsed[i]);
    }
    assert parsed[..|parsed|] == parsed;
  }

  /** Set the network flag, creating the sandbox table if need be. */
  method ForceNetwork(base: Json) returns (r: Result)
    requires base.Obj?
    ensures r ==
      if SANDBOX in base.fields && base.fields[SANDBOX].Atom? then Failed(SandboxNotObject) else Built(Force(base))
  {
    var fields := base.fields;
    if SANDBOX !in fields {
      fields := fields[SANDBOX := Obj(map[])];
    }
    match fields[SANDBOX]
    case Obj(inner) =>
      r := Built(Obj(fields[SANDBOX := Obj(inner[NETWORK := TRUE])]));
      assert r.config.fields == Force(base).fields;
    case Atom(_) => r := Failed(SandboxNotObject);
  }

  method BuildCodexConfigEnv(env: seq<(string, Parsed)>, parent: Option<Parsed>, generated: bool) returns (r: Result)
    ensures r == Build(env, parent, generated)
  {
    if !generated {
      return Absent;
    }
    var entries := CollectEntries(env);
    if entries == [] {
      return Absent;
    }
    var parsed: seq<Json> := [];
    for i := 0 to |entries|
      invariant |parsed| == i
      invariant forall j :: 0 <= j < i ==> IsObject(entries[j]) && parsed[j] == entries[j].j
    {
      match entries[i]
      case Value(Obj(f)) => parsed := parsed + [Obj(f)];
      case Value(Atom(_)) => return Failed(EntryNotObject(i == 0));
      case Invalid => return Failed(EntryNotJson(i == 0));
    }
    assert parsed == Objects(entries);
    var base := MergeEntries(parsed);
    if parent.Some? {
      match parent.value
      case Value(Obj(f)) =>
        assert (parsed + [Obj(f)])[..|parsed|] == parsed;
        base := DeepMerge(base, Obj(f));
      case Value(Atom(_)) => return Failed(ParentNotObject);
      case Invalid => return Failed(ParentNotJson);
    } else {
      assert parsed + [] == parsed;
    }
    assert base == MergeAll(Sources(entries, parent));
    r := ForceNetwork(base);
  }

  const FORCED: Path := [SANDBOX, NETWORK]

  lemma ForceLeaf(j: Json, p: Path)
    requires j.Obj? && (SANDBOX in j.fields ==> j.fields[SANDBOX].Obj?)
    ensures Leaf(Force(j), p) == if FORCED <= p then (if p == FORCED then Some("true") else None) else Leaf(j, p)
  {
    if p != [] && p[0] == SANDBOX {
      var rest := p[1..];
      var inner := Force(j).fields[SANDBOX];
      assert Leaf(Force(j), p) == Leaf(inner, rest);
      if rest != [] && rest[0] == NETWORK {
        assert p == FORCED + rest[1..];
        assert Leaf(inner, rest) == Leaf(TRUE, rest[1..]);
      } else {
        assert !(FORCED <= p);
        assert SANDBOX in j.fields ==> Leaf(j, p) == Leaf(j.fields[SANDBOX], rest);
      }
    }
  }

  /** When a configuration is built, and why not otherwise. */
  lemma BuiltWhen(env: seq<(string, Parsed)>, parent: Option<Parsed>, generated: bool)
    ensures Build(env, parent, generated).Built? <==>
      && generated && Entries(env) != []
      && (forall i :: 0 <= i < |Entries(env)| ==> IsObject(Entries(env)[i]))
      && (parent.Some? ==> IsObject(parent.value))
      && LastWord(Sources(Entries(env), parent), [SANDBOX]).None?
  {
    var entries := Entries(env);
    if generated && entries != [] && FirstBad(entries) == |entries| && (parent.Some? ==> IsObject(parent.value)) {
      var sources := Sources(entries, parent);
      MergeAllObj(sources);
      MergeAllLeaf(sources, [SANDBOX]);
      var m := MergeAll(sources);
      assert [SANDBOX][1..] == [];
      assert Leaf(m, [SANDBOX]).Some? <==> SANDBOX in m.fields && m.fields[SANDBOX].Atom?;
    }
  }

  /** The entries are exactly the CODEX_CONFIG values, in order. */
  lemma {:induction false} EntriesMeaning(a: seq<(string, Parsed)>, b: seq<(string, Parsed)>, name: string, v: Parsed)
    ensures Entries(a + b) == Entries(a) + Entries(b)
    ensures Entries([(name, v)]) == if name == "CODEX_CONFIG" then [v] else []
    decreases |b|
  {
    assert [(name, v)][..0] == [];
    if b == [] {
      assert a + b == a;
    } else {
      var init, last := b[..|b| - 1], b[|b| - 1];
      assert (a + b)[..|a + b| - 1] == a + init;
      EntriesMeaning(a, init, name, v);
    }
  }

  /** The first entry that is not an object, if any, is at `k`. */
  predicate FirstFault(entries: seq<Parsed>, k: nat) {
    k < |entries| && !IsObject(entries[k]) && forall i :: 0 <= i < k ==> IsObject(entries[i])
  }

  predicate AllValid(entries: seq<Parsed>) {
    forall i :: 0 <= i < |entries| ==> IsObject(entries[i])
  }

  /**
   Why no configuration is built: the first fault is reported, entries before the parent, and the
   sandbox table last.
   */
  lemma FailureMeaning(env: seq<(string, Parsed)>, parent: Option<Parsed>, generated: bool, k: nat)
    ensures Build(env, parent, generated) == Absent <==> !generated || Entries(env) == []
    ensures generated && FirstFault(Entries(env), k) ==>
      Build(env, parent, generated) ==
        Failed(if Entries(env)[k] == Invalid then EntryNotJson(k == 0) else EntryNotObject(k == 0))
    ensures generated && Entries(env) != [] && AllValid(Entries(env)) ==>
      && (Build(env, parent, generated) == Failed(ParentNotJson) <==> parent == Some(Invalid))
      && (Build(env, parent, generated) == Failed(ParentNotObject) <==>
            parent.Some? && parent.value.Value? && parent.value.j.Atom?)
    ensures generated && Entries(env) != [] && AllValid(Entries(env)) && (parent.Some? ==> IsObject(parent.value)) ==>
      (Build(env, parent, generated) == Failed(SandboxNotObject) <==>
         LastWord(Sources(Entries(env), parent), [SANDBOX]).Some?)
  {
    BuiltWhen(env, parent, generated);
    var bad := FirstBad(Entries(env));
    if FirstFault(Entries(env), k) {
      assert bad == k;
    }
  }

  /**
   What a built configuration contains, at every path: network access is on, nothing is below it, and
   elsewhere the last source that speaks decides, the parent environment being the last of all.
   */
  lemma BuiltMeaning(env: seq<(string, Parsed)>, parent: Option<Parsed>, generated: bool, p: Path)
    requires Build(env, parent, generated).Built?
    ensures forall i :: 0 <= i < |Entries(env)| ==> IsObject(Entries(env)[i])
    ensures parent.Some? ==> IsObject(parent.value)
    ensures var c := Build(env, parent, generated).config;
      Leaf(c, p) ==
        if p == FORCED then Some("true")
        else if FORCED <= p then None
        else LastWord(Sources(Entries(env), parent), p)
    ensures parent.Some? && Leaf(parent.value.j, p).Some? && !(FORCED <= p) ==>
      Leaf(Build(env, parent, generated).config, p) == Leaf(parent.value.j, p)
  {
    BuiltWhen(env, parent, generated);
    var sources := Sources(Entries(env), parent);
    MergeAllObj(sources);
    MergeAllLeaf(sources, p);
    ForceLeaf(MergeAll(sources), p);
    if parent.Some? && Leaf(parent.value.j, p).Some? {
      EarlierLeafKept(sources, |sources| - 1, p);
    }
  }

  const BELOW: Path := [SANDBOX, NETWORK, "x"]

  lemma LeafAtBelow(inner: Json, middle: Json, parent: Json)
    requires inner == Obj(map["x" := Atom("1")]) && middle == Obj(map[NETWORK := inner])
    requires parent == Obj(map[SANDBOX := middle])
    ensures Leaf(parent, BELOW) == Some("1") && FORCED <= BELOW
  {
    assert BELOW[1..] == [NETWORK, "x"] && [NETWORK, "x"][1..] == ["x"] && ["x"][1..] == [];
    assert Leaf(Atom("1"), []) == Some("1");
    assert Leaf(inner, ["x"]) == Some("1");
    assert Leaf(middle, [NETWORK, "x"]) == Some("1");
    assert BELOW[..2] == FORCED;
  }

  lemma SilentAboutSandbox(middle: Json, parent: Json)
    requires middle.Obj? && parent == Obj(map[SANDBOX := middle])
    ensures Speaks(parent, [SANDBOX]) && Leaf(parent, [SANDBOX]) == None
  {
    assert [SANDBOX][1..] == [];
    assert Leaf(middle, []) == None;
    assert Leaf(parent, [SANDBOX]) == Leaf(middle, []);
  }

  /** The forced flag replaces whatever was at its path: a parent's leaf below it does not survive. */
  lemma LeafBelowForcedFlagIsLost(inner: Json, middle: Json, parent: Json)
    requires inner == Obj(map["x" := Atom("1")]) && middle == Obj(map[NETWORK := inner])
    requires parent == Obj(map[SANDBOX := middle])
    ensures var r := Build([(CODEX_CONFIG, Value(Obj(map[])))], Some(Value(parent)), true);
      && Leaf(parent, BELOW) == Some("1")
      && r.Built? && Leaf(r.config, BELOW) == None
  {
    var env := [(CODEX_CONFIG, Value(Obj(map[])))];
    LeafAtBelow(inner, middle, parent);
    assert Entries(env[..0]) == [];
    assert Entries(env) == [Value(Obj(map[]))];
    var sources := Sources(Entries(env), Some(Value(parent)));
    assert sources == [Obj(map[]), parent];
    SilentAboutSandbox(middle, parent);
    assert LastWord(sources, [SANDBOX]) == None;
    BuiltWhen(env, Some(Value(parent)), true);
    BuiltMeaning(env, Some(Value(parent)), true, BELOW);
  }
}
