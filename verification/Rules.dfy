/**
 Subscription rules: matching an event against them, and the relay filter that must
 let through everything a rule could match.
 */
module Rules {
  import opened Basics
  import opened Events

  type Kind = nat

  // ---- rules ----

  /**
   A channel id as text. It may spell no channel at all; of the spellings the parser accepts for a
   channel, one is the canonical text.
   */
  datatype IdText = IdText(parsed: Option<Channel>, canonical: bool)

  function ToText(c: Channel): IdText {
    IdText(Some(c), true)
  }

  /** `AllText(ok)`: the string form, `ok` when it is exactly "all". */
  datatype Scope = AllText(ok: bool) | List(ids: seq<IdText>)

  datatype Rule = Rule(channels: Scope, kinds: seq<Kind>, requireMention: bool, hasFilter: bool)

  datatype Incoming = Incoming(channel: Channel, kind: Kind, mentioned: bool)

  /** `ChannelScope::matches` compares text. */
  predicate ScopeMatches(s: Scope, c: Channel) {
    match s
    case AllText(ok) => ok
    case List(ids) => ToText(c) in ids
  }

  /** `rule_applies_to_channel` parses the text first. */
  predicate RuleApplies(r: Rule, c: Channel) {
    match r.channels
    case AllText(ok) => ok
    case List(ids) => exists i :: 0 <= i < |ids| && ids[i].parsed == Some(c)
  }

  /** The checks of a rule that need no expression. */
  predicate StaticPass(r: Rule, e: Incoming) {
    && ScopeMatches(r.channels, e.channel)
    && (r.kinds == [] || e.kind in r.kinds)
    && (r.requireMention ==> e.mentioned)
  }

  // ---- matching ----

  /** What evaluating a rule's expression on the event yields. */
  datatype Eval = True | False | Timeout | Error

  const MAX_CONSECUTIVE_TIMEOUTS: nat := 5

  datatype Outcome = Outcome(matched: Option<nat>, counters: seq<nat>)

  /** Rules from index `i` on, with the timeout counters as they stand. */
  function MatchFrom(rules: seq<Rule>, counters: seq<nat>, e: Incoming, evals: seq<Eval>, i: nat): (o: Outcome)
    requires |counters| == |rules| == |evals|
    ensures |o.counters| == |counters|
    decreases |rules| - i
  {
    if i >= |rules| then Outcome(None, counters)
    else if !StaticPass(rules[i], e) then MatchFrom(rules, counters, e, evals, i + 1)
    else if !rules[i].hasFilter then Outcome(Some(i), counters)
    else if counters[i] >= MAX_CONSECUTIVE_TIMEOUTS then Outcome(None, counters)
    else
      match evals[i]
      case True => Outcome(Some(i), counters[i := 0])
      case False => MatchFrom(rules, counters[i := 0], e, evals, i + 1)
      case Timeout => Outcome(None, counters[i := counters[i] + 1])
      case Error => Outcome(None, counters)
  }

  function Match(rules: seq<Rule>, counters: seq<nat>, e: Incoming, evals: seq<Eval>): Outcome
    requires |counters| == |rules| == |evals|
  {
    MatchFrom(rules, counters, e, evals, 0)
  }

  /** The rules with their shared timeout counters. */
  class Matcher {
    const rules: seq<Rule>
    var counters: seq<nat>

    ghost predicate Valid()
      reads this
    {
      |counters| == |rules|
    }

    constructor (loaded: seq<Rule>)
      ensures Valid() && rules == loaded && counters == seq(|loaded|, _ => 0)
    {
      rules := loaded;
      counters := seq(|loaded|, _ => 0);
    }

    method MatchEvent(e: Incoming, evals: seq<Eval>) returns (matched: Option<nat>)
      requires Valid() && |evals| == |rules|
      modifies this
      ensures Valid()
      ensures Outcome(matched, counters) == Match(rules, old(counters), e, evals)
    {
      for i := 0 to |rules|
        invariant Valid()
        invariant MatchFrom(rules, counters, e, evals, i) == Match(rules, old(counters), e, evals)
      {
        var rule := rules[i];
        if !ScopeMatches(rule.channels, e.channel) {
          continue;
        }
        if rule.kinds != [] && e.kind !in rule.kinds {
          continue;
        }
        if rule.requireMention && !e.mentioned {
          continue;
        }
        if rule.hasFilter {
          if counters[i] >= MAX_CONSECUTIVE_TIMEOUTS {
            return None;
          }
          match evals[i] {
            case True => counters := counters[i := 0];
            case False =>
              counters := counters[i := 0];
              continue;
            case Timeout =>
              counters := counters[i := counters[i] + 1];
              return None;
            case Error => return None;
          }
        }
        return Some(i);
      }
      return None;
    }
  }

  /** The definite no of a rule: it applied, was evaluated, and its expression was false. */
  ghost predicate SaidNo(rules: seq<Rule>, counters: seq<nat>, evals: seq<Eval>, i: nat)
    requires |counters| == |rules| == |evals| && i < |rules|
  {
    rules[i].hasFilter && counters[i] < MAX_CONSECUTIVE_TIMEOUTS && evals[i] == False
  }

  /**
   Rule `j` is evaluated on this event: it passes its static checks, is not disabled, and every
   applicable rule before it said no.
   */
  ghost predicate Reached(rules: seq<Rule>, counters: seq<nat>, e: Incoming, evals: seq<Eval>, from: nat, j: nat)
    requires |counters| == |rules| == |evals|
  {
    && from <= j < |rules| && StaticPass(rules[j], e) && rules[j].hasFilter && counters[j] < MAX_CONSECUTIVE_TIMEOUTS
    && forall i :: from <= i < j && StaticPass(rules[i], e) ==> SaidNo(rules, counters, evals, i)
  }

  /**
   Fail-closed matching: index `k` is returned exactly when rule `k` accepts and every earlier
   applicable rule definitely said no.
   */
  lemma {:induction false} MatchedMeaning(rules: seq<Rule>, counters: seq<nat>, e: Incoming, evals: seq<Eval>,
                                          from: nat, k: nat)
    requires |counters| == |rules| == |evals| && from <= k < |rules|
    ensures MatchFrom(rules, counters, e, evals, from).matched == Some(k) <==>
      && StaticPass(rules[k], e)
      && (rules[k].hasFilter ==> counters[k] < MAX_CONSECUTIVE_TIMEOUTS && evals[k] == True)
      && forall i :: from <= i < k && StaticPass(rules[i], e) ==> SaidNo(rules, counters, evals, i)
    decreases |rules| - from
  {
    if StaticPass(rules[from], e) {
      if from < k {
        if SaidNo(rules, counters, evals, from) {
          MatchedMeaning(rules, counters[from := 0], e, evals, from + 1, k);
          assert forall i :: from < i < |rules| ==>
            (SaidNo(rules, counters[from := 0], evals, i) <==> SaidNo(rules, counters, evals, i));
        }
      } else if rules[k].hasFilter && counters[k] < MAX_CONSECUTIVE_TIMEOUTS && evals[k] == False {
        NotBefore(rules, counters[from := 0], e, evals, from + 1, k);
      }
    } else if from < k {
      MatchedMeaning(rules, counters, e, evals, from + 1, k);
    } else {
      NotBefore(rules, counters, e, evals, from + 1, k);
    }
  }

  lemma {:induction false} NotBefore(rules: seq<Rule>, counters: seq<nat>, e: Incoming, evals: seq<Eval>,
                                     from: nat, k: nat)
    requires |counters| == |rules| == |evals| && k < from
    ensures MatchFrom(rules, counters, e, evals, from).matched != Some(k)
    decreases |rules| - from
  {
    if from < |rules| {
      NotBefore(rules, counters, e, evals, from + 1, k);
      NotBefore(rules, counters[from := 0], e, evals, from + 1, k);
    }
  }

  /** What one event does to the counter of rule `j`. */
  function Bumped(counter: nat, v: Eval): nat {
    match v
    case True => 0
    case False => 0
    case Timeout => counter + 1
    case Error => counter
  }

  lemma {:induction false} CounterStep(rules: seq<Rule>, counters: seq<nat>, e: Incoming, evals: seq<Eval>,
                                       from: nat, j: nat)
    requires |counters| == |rules| == |evals| && j < |rules|
    ensures MatchFrom(rules, counters, e, evals, from).counters[j] ==
      if Reached(rules, counters, e, evals, from, j) then Bumped(counters[j], evals[j]) else counters[j]
    decreases |rules| - from
  {
    if from < |rules| {
      if !StaticPass(rules[from], e) {
        CounterStep(rules, counters, e, evals, from + 1, j);
      } else if SaidNo(rules, counters, evals, from) {
        CounterStep(rules, counters[from := 0], e, evals, from + 1, j);
        assert j > from ==>
          (Reached(rules, counters, e, evals, from, j) <==> Reached(rules, counters[from := 0], e, evals, from + 1, j));
      } else {
        assert j > from ==> !Reached(rules, counters, e, evals, from, j);
      }
    }
  }

  // ---- runs of events ----

  datatype Input = Input(e: Incoming, evals: seq<Eval>)

  ghost predicate WellSized(rules: seq<Rule>, ins: seq<Input>) {
    forall i :: 0 <= i < |ins| ==> |ins[i].evals| == |rules|
  }

  function CountersAfter(rules: seq<Rule>, counters: seq<nat>, ins: seq<Input>): (r: seq<nat>)
    requires |counters| == |rules| && (forall i :: 0 <= i < |ins| ==> |ins[i].evals| == |rules|)
    ensures |r| == |rules|
  {
    if ins == [] then counters
    else
      var before := CountersAfter(rules, counters, ins[..|ins| - 1]);
      Match(rules, before, ins[|ins| - 1].e, ins[|ins| - 1].evals).counters
  }

  /** The results rule `j` produced over a run, in order: one for each event on which it was evaluated. */
  ghost function History(rules: seq<Rule>, counters: seq<nat>, ins: seq<Input>, j: nat): seq<Eval>
    requires |counters| == |rules| && WellSized(rules, ins)
  {
    if ins == [] then []
    else
      var last := ins[|ins| - 1];
      var before := CountersAfter(rules, counters, ins[..|ins| - 1]);
      History(rules, counters, ins[..|ins| - 1], j)
      + (if Reached(rules, before, last.e, last.evals, 0, j) then [last.evals[j]] else [])
  }

  /** Timeouts since the last definite result. */
  function TimeoutsSinceDefinite(h: seq<Eval>): nat {
    if h == [] then 0
    else
      match h[|h| - 1]
      case True => 0
      case False => 0
      case Timeout => 1 + TimeoutsSinceDefinite(h[..|h| - 1])
      case Error => TimeoutsSinceDefinite(h[..|h| - 1])
  }

  /** Each counter equals the timeouts since that rule's last definite result, over every run from fresh counters. */
  lemma {:induction false} CounterMeaning(rules: seq<Rule>, counters: seq<nat>, ins: seq<Input>, j: nat)
    requires |counters| == |rules| && WellSized(rules, ins) && j < |rules| && counters[j] == 0
    ensures CountersAfter(rules, counters, ins)[j] == TimeoutsSinceDefinite(History(rules, counters, ins, j))
    ensures CountersAfter(rules, counters, ins)[j] <= MAX_CONSECUTIVE_TIMEOUTS
  {
    if ins != [] {
      var last, init := ins[|ins| - 1], ins[..|ins| - 1];
      var before := CountersAfter(rules, counters, init);
      CounterMeaning(rules, counters, init, j);
      CounterStep(rules, before, last.e, last.evals, 0, j);
      if Reached(rules, before, last.e, last.evals, 0, j) {
        var h := History(rules, counters, init, j);
        assert (h + [last.evals[j]])[..|h|] == h;
      } else {
        assert History(rules, counters, init, j) + [] == History(rules, counters, init, j);
      }
    }
  }

  /** Once disabled, a rule stays disabled for the rest of every run. */
  lemma {:induction false} DisabledForever(rules: seq<Rule>, counters: seq<nat>, ins: seq<Input>, j: nat)
    requires |counters| == |rules| && WellSized(rules, ins) && j < |rules| && counters[j] >= MAX_CONSECUTIVE_TIMEOUTS
    ensures CountersAfter(rules, counters, ins)[j] == counters[j]
  {
    if ins != [] {
      var last, init := ins[|ins| - 1], ins[..|ins| - 1];
      DisabledForever(rules, counters, init, j);
      CounterStep(rules, CountersAfter(rules, counters, init), last.e, last.evals, 0, j);
    }
  }

  /** A disabled rule closes the list: an event that passes its static checks matches an earlier rule or nothing. */
  lemma DisabledFailsClosed(rules: seq<Rule>, counters: seq<nat>, e: Incoming, evals: seq<Eval>, j: nat)
    requires |counters| == |rules| == |evals| && j < |rules|
    requires StaticPass(rules[j], e) && rules[j].hasFilter && counters[j] >= MAX_CONSECUTIVE_TIMEOUTS
    ensures var m := Match(rules, counters, e, evals).matched; m.Some? ==> m.value < j
  {
    var m := Match(rules, counters, e, evals).matched;
    MatchInRange(rules, counters, e, evals, 0);
    if m.Some? {
      MatchedMeaning(rules, counters, e, evals, 0, m.value);
      assert m.value > j ==> SaidNo(rules, counters, evals, j);
    }
  }

  lemma {:induction false} MatchInRange(rules: seq<Rule>, counters: seq<nat>, e: Incoming, evals: seq<Eval>, from: nat)
    requires |counters| == |rules| == |evals|
    ensures var m := MatchFrom(rules, counters, e, evals, from).matched; m.Some? ==> from <= m.value < |rules|
    decreases |rules| - from
  {
    if from < |rules| {
      MatchInRange(rules, counters, e, evals, from + 1);
      MatchInRange(rules, counters[from := 0], e, evals, from + 1);
    }
  }

  // ---- relay filters ----

  datatype Mode = Mentions | All | Config

  datatype Settings = Settings(mode: Mode, channelsOverride: Option<seq<IdText>>, kindsOverride: Option<seq<Kind>>,
                               noMentionFilter: bool, defaultKinds: seq<Kind>)

  datatype Filter = Filter(kinds: Option<seq<Kind>>, requireMention: bool)

  predicate Admits(f: Filter, e: Incoming) {
    && (f.kinds.Some? ==> e.kind in f.kinds.value)
    && (f.requireMention ==> e.mentioned)
  }

  function AddKinds(known: seq<Kind>, more: seq<Kind>): seq<Kind> {
    if more == [] then known
    else
      var k := AddKinds(known, more[..|more| - 1]);
      if more[|more| - 1] in k then k else k + [more[|more| - 1]]
  }

  /** The rules merged for one channel; `None` when no rule applies. */
  function Merged(rules: seq<Rule>, c: Channel): Option<Filter> {
    if rules == [] then None
    else
      var r := rules[|rules| - 1];
      var before := Merged(rules[..|rules| - 1], c);
      if !RuleApplies(r, c) then before
      else
        var f := if before.Some? then before.value else Filter(Some([]), true);
        Some(Filter(
          if r.kinds == [] then None else if f.kinds.Some? then Some(AddKinds(f.kinds.value, r.kinds)) else None,
          f.requireMention && r.requireMention))
  }

  /** The merge loop both resolvers share. */
  method MergeRules(rules: seq<Rule>, c: Channel) returns (f: Option<Filter>)
    ensures f == Merged(rules, c)
  {
    var kinds: Option<seq<Kind>> := Some([]);
    var requireMention := true;
    var hasRule := false;
    for i := 0 to |rules|
      invariant (if hasRule then Some(Filter(kinds, requireMention)) else None) == Merged(rules[..i], c)
      invariant !hasRule ==> kinds == Some([]) && requireMention
    {
      assert rules[..i + 1][..i] == rules[..i];
      var rule := rules[i];
      if !RuleApplies(rule, c) {
        continue;
      }
      hasRule := true;
      if rule.kinds == [] {
        kinds := None;
      } else if kinds.Some? {
        var known := kinds.value;
        var merged := known;
        for j := 0 to |rule.kinds|
          invariant merged == AddKinds(known, rule.kinds[..j])
        {
          assert rule.kinds[..j + 1][..j] == rule.kinds[..j];
          if rule.kinds[j] !in merged {
            merged := merged + [rule.kinds[j]];
          }
        }
        assert rule.kinds[..|rule.kinds|] == rule.kinds;
        kinds := Some(merged);
      }
      if !rule.requireMention {
        requireMention := false;
      }
    }
    assert rules[..|rules|] == rules;
    f := if hasRule then Some(Filter(kinds, requireMention)) else None;
  }

  predicate Allowed(st: Settings, c: Channel) {
    st.channelsOverride.Some? ==>
      exists i :: 0 <= i < |st.channelsOverride.value| && st.channelsOverride.value[i].parsed == Some(c)
  }

  function MentionKinds(st: Settings): seq<Kind> {
    if st.kindsOverride.Some? then st.kindsOverride.value else st.defaultKinds
  }

  function PlainFilter(st: Settings): Filter {
    match st.mode
    case Mentions => Filter(Some(MentionKinds(st)), !st.noMentionFilter)
    case _ => Filter(st.kindsOverride, false)
  }

  /** The filter of one channel, if it is in scope. */
  function FilterOf(st: Settings, rules: seq<Rule>, c: Channel): Option<Filter> {
    if st.mode.Config? then Merged(rules, c)
    else if Allowed(st, c) then Some(PlainFilter(st)) else None
  }

  method ResolveDynamicChannelFilter(st: Settings, c: Channel, rules: seq<Rule>) returns (f: Option<Filter>)
    ensures f == FilterOf(st, rules, c)
  {
    if !st.mode.Config? {
      if st.channelsOverride.Some? {
        var overrides := st.channelsOverride.value;
        var allowed := exists i :: 0 <= i < |overrides| && overrides[i].parsed == Some(c);
        if !allowed {
          return None;
        }
      }
    }
    match st.mode
    case Mentions =>
      var kinds := if st.kindsOverride.Some? then st.kindsOverride.value else st.defaultKinds;
      return Some(Filter(Some(kinds), !st.noMentionFilter));
    case All => return Some(Filter(st.kindsOverride, false));
    case Config => f := MergeRules(rules, c);
  }

  /** The overrides that parse and were discovered, or everything discovered. */
  method TargetChannels(st: Settings, discovered: seq<Channel>) returns (targets: seq<Channel>)
    ensures forall c :: c in targets <==> c in discovered && Allowed(st, c)
  {
    if st.channelsOverride.None? {
      return discovered;
    }
    var overrides := st.channelsOverride.value;
    targets := [];
    for i := 0 to |overrides|
      invariant forall c :: c in targets <==>
        c in discovered && exists j :: 0 <= j < i && overrides[j].parsed == Some(c)
    {
      if overrides[i].parsed.Some? && overrides[i].parsed.value in discovered {
        targets := targets + [overrides[i].parsed.value];
      }
    }
  }

  /** The batch resolver gives every discovered channel exactly the filter the dynamic resolver would give it. */
  method ResolveChannelFilters(st: Settings, discovered: seq<Channel>, rules: seq<Rule>)
    returns (result: map<Channel, Filter>)
    ensures forall c :: c in result ==> c in discovered && FilterOf(st, rules, c) == Some(result[c])
    ensures forall c :: c in discovered && c !in result ==> FilterOf(st, rules, c) == None
  {
    var targets := TargetChannels(st, discovered);
    result := map[];
    match st.mode
    case Mentions =>
      var kinds := if st.kindsOverride.Some? then st.kindsOverride.value else st.defaultKinds;
      var requireMention := !st.noMentionFilter;
      for i := 0 to |targets|
        invariant forall c :: c in result <==> c in targets[..i]
        invariant forall c :: c in result ==> result[c] == PlainFilter(st)
      {
        result := result[targets[i] := Filter(Some(kinds), requireMention)];
      }
    case All =>
      for i := 0 to |targets|
        invariant forall c :: c in result <==> c in targets[..i]
        invariant forall c :: c in result ==> result[c] == PlainFilter(st)
      {
        result := result[targets[i] := Filter(st.kindsOverride, false)];
      }
    case Config =>
      for i := 0 to |discovered|
        invariant forall c :: c in result ==> c in discovered && Merged(rules, c) == Some(result[c])
        invariant forall c :: c in discovered[..i] && c !in result ==> Merged(rules, c) == None
      {
        var f := MergeRules(rules, discovered[i]);
        if f.Some? {
          result := result[discovered[i] := f.value];
        }
      }
  }

  lemma {:induction false} AddKindsMembers(known: seq<Kind>, more: seq<Kind>, k: Kind)
    ensures k in AddKinds(known, more) <==> k in known || k in more
  {
    if more != [] {
      AddKindsMembers(known, more[..|more| - 1], k);
      AddKindsMembers(known, more[..|more| - 1], more[|more| - 1]);
      assert more == more[..|more| - 1] + [more[|more| - 1]];
    }
  }

  /** What the merged filter is, independent of the order of the rules. */
  lemma {:induction false} MergedMeaning(rules: seq<Rule>, c: Channel, k: Kind)
    ensures Merged(rules, c).Some? <==> exists r :: r in rules && RuleApplies(r, c)
    ensures Merged(rules, c).Some? ==>
      && (Merged(rules, c).value.kinds.None? <==> exists r :: r in rules && RuleApplies(r, c) && r.kinds == [])
      && (Merged(rules, c).value.kinds.Some? ==>
            (k in Merged(rules, c).value.kinds.value <==> exists r :: r in rules && RuleApplies(r, c) && k in r.kinds))
      && (Merged(rules, c).value.requireMention <==> forall r :: r in rules && RuleApplies(r, c) ==> r.requireMention)
  {
    if rules != [] {
      var last, init := rules[|rules| - 1], rules[..|rules| - 1];
      MergedMeaning(init, c, k);
      assert forall r :: r in rules <==> r in init || r == last;
      if RuleApplies(last, c) && Merged(init, c).Some? && Merged(init, c).value.kinds.Some? {
        AddKindsMembers(Merged(init, c).value.kinds.value, last.kinds, k);
      } else if RuleApplies(last, c) {
        AddKindsMembers([], last.kinds, k);
      }
    }
  }

  /** A scope that matches by text also applies by parsing; the converse holds exactly for the canonical spelling. */
  lemma MatchesVersusApplies(r: Rule, c: Channel)
    ensures ScopeMatches(r.channels, c) ==> RuleApplies(r, c)
    ensures RuleApplies(r, c) ==>
      (ScopeMatches(r.channels, c) <==>
        r.channels.AllText? || exists i :: 0 <= i < |r.channels.ids| && r.channels.ids[i] == ToText(c))
  {
    if r.channels.List? && ScopeMatches(r.channels, c) {
      var i :| 0 <= i < |r.channels.ids| && r.channels.ids[i] == ToText(c);
      assert r.channels.ids[i].parsed == Some(c);
    }
  }

  /** The kinds a mentions filter admits: the override if there is one, else the defaults. */
  predicate MentionKind(st: Settings, k: Kind) {
    match st.kindsOverride
    case Some(kinds) => k in kinds
    case None => k in st.defaultKinds
  }

  /**
   Outside Config mode: a channel has a filter exactly when there is no override list or an entry of it
   parses to the channel. In Mentions mode the filter admits the mention kinds, and only mentions unless
   the mention filter is off; in All mode it admits the override's kinds, or every event.
   */
  lemma PlainMeaning(st: Settings, rules: seq<Rule>, c: Channel, e: Incoming)
    requires !st.mode.Config?
    ensures FilterOf(st, rules, c).Some? <==>
      st.channelsOverride == None ||
      exists i :: 0 <= i < |st.channelsOverride.value| && st.channelsOverride.value[i].parsed == Some(c)
    ensures FilterOf(st, rules, c).Some? && st.mode.Mentions? ==>
      (Admits(FilterOf(st, rules, c).value, e) <==> MentionKind(st, e.kind) && (st.noMentionFilter || e.mentioned))
    ensures FilterOf(st, rules, c).Some? && st.mode.All? ==>
      (Admits(FilterOf(st, rules, c).value, e) <==> (st.kindsOverride.Some? ==> e.kind in st.kindsOverride.value))
  {
  }

  /**
   In Config mode: some applying rule takes the kind, and some applying rule takes events without a
   mention or the event has one.
   */
  lemma ConfigMeaning(st: Settings, rules: seq<Rule>, c: Channel, e: Incoming)
    requires st.mode.Config?
    ensures FilterOf(st, rules, c).Some? <==> exists r :: r in rules && RuleApplies(r, c)
    ensures FilterOf(st, rules, c).Some? ==>
      (Admits(FilterOf(st, rules, c).value, e) <==>
        && (exists r :: r in rules && RuleApplies(r, c) && (r.kinds == [] || e.kind in r.kinds))
        && (e.mentioned || exists r :: r in rules && RuleApplies(r, c) && !r.requireMention))
  {
    MergedMeaning(rules, c, e.kind);
  }

  /**
   What a scope covers: "all" everything, any other text nothing; a list whatever it spells, where the
   matcher wants the canonical spelling and the resolver any spelling. So the filter can be the wider one.
   */
  lemma ScopeMeaning(r: Rule, c: Channel, ids: seq<IdText>, t: IdText)
    ensures r.channels == AllText(true) ==> ScopeMatches(r.channels, c) && RuleApplies(r, c)
    ensures r.channels == AllText(false) ==> !ScopeMatches(r.channels, c) && !RuleApplies(r, c)
    ensures r.channels == List(ids + [t]) && t == IdText(Some(c), true) ==>
      ScopeMatches(r.channels, c) && RuleApplies(r, c)
    ensures r.channels == List([t]) && t == IdText(Some(c), false) ==> !ScopeMatches(r.channels, c) && RuleApplies(r, c)
    ensures r.channels == List([t]) && t.parsed != Some(c) ==> !ScopeMatches(r.channels, c) && !RuleApplies(r, c)
  {
    assert (ids + [t])[|ids|] == t;
    assert [t][0] == t;
  }

  /**
   The relay filter covers the matcher: in Config mode, whenever a rule is matched, the channel has a
   filter and that filter lets the event through.
   */
  lemma FilterCoversMatcher(st: Settings, rules: seq<Rule>, counters: seq<nat>, e: Incoming, evals: seq<Eval>)
    requires st.mode.Config? && |counters| == |rules| == |evals|
    requires Match(rules, counters, e, evals).matched.Some?
    ensures FilterOf(st, rules, e.channel).Some? && Admits(FilterOf(st, rules, e.channel).value, e)
  {
    var k := Match(rules, counters, e, evals).matched.value;
    MatchInRange(rules, counters, e, evals, 0);
    MatchedMeaning(rules, counters, e, evals, 0, k);
    MatchesVersusApplies(rules[k], e.channel);
    assert rules[k] in rules;
    MergedMeaning(rules, e.channel, e.kind);
  }
}
