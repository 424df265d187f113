/** `PylintMessagesManager` (gpylint/settings/PylintMessagesManager.py):
    pylint's messages gathered per checker name, and a settings section per
    checker with an on/off switch per message code. The class-level `msgs`
    dictionary is the field of the one `PylintMessages` object; the parser
    is the module's `config`. pylint's checkers are given as the lists of
    `linter._checkers.values()`, in that order. */
module PylintMessages {
  import opened PyRuntime
  import opened ConfigParser

  /** A message's text and description. */
  datatype MsgInfo = MsgInfo(text: string, description: string)

  /** What `__init__` reads of a checker: its name and its messages by code. */
  datatype Checker = Checker(name: string, msgs: map<string, MsgInfo>)

  type Registry = map<string, map<string, MsgInfo>>

  /** The checkers of the lists, in iteration order. */
  function Flatten(groups: seq<seq<Checker>>): (cs: seq<Checker>)
  {
    if groups == [] then [] else Flatten(groups[..|groups| - 1]) + groups[|groups| - 1]
  }

  lemma FlattenStep(groups: seq<seq<Checker>>, i: nat)
    requires i < |groups|
    ensures Flatten(groups[..i + 1]) == Flatten(groups[..i]) + groups[i]
  {
    assert groups[..i + 1][..i] == groups[..i];
  }

  function Names(cs: seq<Checker>): set<string>
  {
    set i | 0 <= i < |cs| :: cs[i].name
  }

  /** Lines 61-63 for one checker: its messages merged into the dictionary
      of its name, which is made empty first if missing. */
  function Absorb(m: Registry, c: Checker): Registry
  {
    m[c.name := (if c.name in m then m[c.name] else map[]) + c.msgs]
  }

  /** The registry after absorbing the checkers in order. */
  function Merge(m: Registry, cs: seq<Checker>): Registry
  {
    if cs == [] then m else Absorb(Merge(m, cs[..|cs| - 1]), cs[|cs| - 1])
  }

  /** Merging never removes a name or a code, and adds exactly the
      checkers' names and codes. */
  lemma {:induction false} MergeKeys(m: Registry, cs: seq<Checker>)
    ensures Merge(m, cs).Keys == m.Keys + Names(cs)
    ensures forall n | n in m :: m[n].Keys <= Merge(m, cs)[n].Keys
    ensures forall n, k | n in Merge(m, cs) && k in Merge(m, cs)[n] ::
              (n in m && k in m[n]) || exists i :: 0 <= i < |cs| && cs[i].name == n && k in cs[i].msgs
  {
    if cs != [] {
      var p, c := cs[..|cs| - 1], cs[|cs| - 1];
      MergeKeys(m, p);
      assert Names(cs) == Names(p) + {c.name} by {
        assert forall i | 0 <= i < |p| :: p[i] == cs[i];
      }
      forall n, k | n in Merge(m, cs) && k in Merge(m, cs)[n]
        ensures (n in m && k in m[n]) || exists i :: 0 <= i < |cs| && cs[i].name == n && k in cs[i].msgs
      {
        if n == c.name && k in c.msgs {
          assert cs[|cs| - 1] == c;
        } else {
          assert k in Merge(m, p)[n];
          if !(n in m && k in m[n]) {
            var i :| 0 <= i < |p| && p[i].name == n && k in p[i].msgs;
            assert cs[i] == p[i];
          }
        }
      }
    }
  }

  /** The message a name ends with for a code is that of the last checker
      of that name defining the code: later checkers override earlier ones
      and the registry's earlier content. */
  lemma {:induction false} MergeLastWins(m: Registry, cs: seq<Checker>, i: nat, k: string)
    requires i < |cs| && k in cs[i].msgs
    requires forall j | i < j < |cs| :: cs[j].name != cs[i].name || k !in cs[j].msgs
    ensures cs[i].name in Merge(m, cs) && k in Merge(m, cs)[cs[i].name]
    ensures Merge(m, cs)[cs[i].name][k] == cs[i].msgs[k]
  {
    var p, c := cs[..|cs| - 1], cs[|cs| - 1];
    if i < |cs| - 1 {
      assert p[i] == cs[i];
      MergeLastWins(m, p, i, k);
    }
  }

  /** A code no checker of that name defines keeps the message it had. */
  lemma {:induction false} MergeKeepsOld(m: Registry, cs: seq<Checker>, n: string, k: string)
    requires n in m && k in m[n]
    requires forall j | 0 <= j < |cs| :: cs[j].name != n || k !in cs[j].msgs
    ensures n in Merge(m, cs) && k in Merge(m, cs)[n] && Merge(m, cs)[n][k] == m[n][k]
  {
    if cs != [] {
      var p := cs[..|cs| - 1];
      MergeKeepsOld(m, p, n, k);
    }
  }

  /** A checker name `add_section` refuses: one that is DEFAULT up to case
      and not yet a section. */
  predicate Refused(c: ConfigData, name: string)
  {
    LowerStr(name) == "default" && name !in c.sections
  }

  /** The sections of `c` and an empty one for each new name. */
  ghost predicate SectionsAdded(c: ConfigData, d: ConfigData, names: set<string>)
  {
    && d.defaults == c.defaults
    && d.sections.Keys == c.sections.Keys + names
    && (forall s | s in c.sections :: d.sections[s] == c.sections[s])
    && (forall s | s in d.sections && s !in c.sections :: d.sections[s] == map[])
  }

  /** A section the second loop can write codes into. */
  predicate Writable(c: ConfigData, s: string)
  {
    NamesDefaults(s) || s in c.sections
  }

  /** Every code of the registry has a switch in its checker's section. */
  ghost predicate Switched(c: ConfigData, m: Registry, done: set<string>)
  {
    forall s, k | s in done && s in m && k in m[s] :: HasOption(c, s, k)
  }

  /** The names `set` stores codes under: lower-cased. */
  function Lowered(codes: set<string>): set<string>
  {
    set code | code in codes :: LowerStr(code)
  }

  /** The codes of each checker name of the registry. */
  function Codes(m: Registry): map<string, set<string>>
  {
    map s | s in m :: m[s].Keys
  }

  /** Every option `d` holds beyond `c` is the switch of one of `codes`:
      in the section of that name, or in DEFAULT for a name denoting it. */
  ghost predicate AddsOnly(c: ConfigData, d: ConfigData, codes: map<string, set<string>>)
  {
    && (forall s, k | s in d.sections && k in d.sections[s] && !(s in c.sections && k in c.sections[s]) ::
          s in codes && k in Lowered(codes[s]))
    && (forall k | k in d.defaults && k !in c.defaults ::
          ("" in codes && k in Lowered(codes[""])) || (DefaultSection in codes && k in Lowered(codes[DefaultSection])))
  }

  class PylintMessages {
    /** `msgs`: checker name to the messages of all checkers of that name. */
    var msgs: Registry

    constructor()
      ensures msgs == map[]
    {
      msgs := map[];
    }

    /** `__init__` with the loaded checkers: sections and registry for each
        checker (lines 53-63), then `on` for every code without a switch
        (lines 65-68). Whatever error stops it, the parser has only grown:
        by sections for checker names and by `on` switches for codes of the
        registry. */
    method Init(config: Config, groups: seq<seq<Checker>>) returns (err: Option<PyError>)
      modifies this, config
      ensures var cs := Flatten(groups);
              var refused := exists i | 0 <= i < |cs| :: Refused(old(config.data), cs[i].name);
              && (refused ==> err == Some(ValueError))
              && (!refused ==> msgs == Merge(old(msgs), cs))
              && (!refused ==> (err.None? <==> forall s | s in msgs && msgs[s] != map[] :: Writable(old(config.data), s) || s in Names(cs)))
              && (err.Some? && !refused ==> err == Some(NoSectionError))
              && (err.None? ==>
                    && config.data.sections.Keys == old(config.data.sections.Keys) + Names(cs)
                    && Switched(config.data, msgs, msgs.Keys))
      ensures GrowsBy(old(config.data), config.data, "on")
      ensures AddsOnly(old(config.data), config.data, Codes(msgs))
      ensures config.data.sections.Keys <= old(config.data.sections.Keys) + Names(Flatten(groups))
    {
      ghost var c0, m0 := config.data, msgs;
      err := AddCheckers(config, groups);
      ghost var c1 := config.data;
      if err.Some? {
        AddsOnlyRefl(c1, Codes(msgs));
        AddsOnlyTrans(c0, c1, c1, map[], Codes(msgs));
        return;
      }
      MergeKeys(m0, Flatten(groups));
      err := FillSwitches(config);
      GrowsByTrans(c0, c1, config.data, "on");
      AddsOnlyTrans(c0, c1, config.data, map[], Codes(msgs));
    }

    /** Lines 53-63: a section for each checker that lacks one, and its
        messages merged into the registry. Up to a refused name, sections
        are added and nothing else changes. */
    method AddCheckers(config: Config, groups: seq<seq<Checker>>) returns (err: Option<PyError>)
      modifies this, config
      ensures var cs := Flatten(groups);
              && (err.Some? <==> exists i | 0 <= i < |cs| :: Refused(old(config.data), cs[i].name))
              && (err.Some? ==> err == Some(ValueError))
              && (err.None? ==> msgs == Merge(old(msgs), cs) && SectionsAdded(old(config.data), config.data, Names(cs)))
      ensures GrowsBy(old(config.data), config.data, "on") && AddsOnly(old(config.data), config.data, map[])
      ensures config.data.sections.Keys <= old(config.data.sections.Keys) + Names(Flatten(groups))
    {
      ghost var c0, m0 := config.data, msgs;
      err := None;
      for i := 0 to |groups|
        invariant err == None
        invariant msgs == Merge(m0, Flatten(groups[..i]))
        invariant SectionsAdded(c0, config.data, Names(Flatten(groups[..i])))
        invariant NoneRefused(c0, Flatten(groups[..i]))
      {
        ghost var ci, done := config.data, Flatten(groups[..i]);
        RefusedSame(c0, ci, done);
        err := AddGroup(config, groups[i]);
        FlattenStep(groups, i);
        NamesAppend(done, groups[i]);
        if err.Some? {
          ghost var k :| 0 <= k < |groups[i]| && Refused(ci, groups[i][k].name);
          FlattenPrefixHas(groups, i, done + groups[i], |done| + k);
          SectionsAddedOnly(c0, ci, Names(done));
          GrowsByTrans(c0, ci, config.data, "on");
          AddsOnlyTrans(c0, ci, config.data, map[], map[]);
          FlattenPrefix(groups, i + 1);
          NamesOfPrefix(done + groups[i], Flatten(groups));
          return;
        }
        MergeAppend(m0, done, groups[i]);
        SectionsAddedTrans(c0, ci, config.data, Names(done), Names(groups[i]));
        NoneRefusedAppend(c0, done, groups[i]);
      }
      assert groups[..|groups|] == groups;
      SectionsAddedOnly(c0, config.data, Names(Flatten(groups)));
    }

    /** The inner loop of lines 53-63, over one list of checkers. */
    method AddGroup(config: Config, group: seq<Checker>) returns (err: Option<PyError>)
      modifies this, config
      ensures err.Some? <==> exists k | 0 <= k < |group| :: Refused(old(config.data), group[k].name)
      ensures err.Some? ==> err == Some(ValueError)
      ensures err.None? ==> msgs == Merge(old(msgs), group) && SectionsAdded(old(config.data), config.data, Names(group))
      ensures GrowsBy(old(config.data), config.data, "on") && AddsOnly(old(config.data), config.data, map[])
      ensures config.data.sections.Keys <= old(config.data.sections.Keys) + Names(group)
    {
      ghost var c0, m0 := config.data, msgs;
      err := None;
      for j := 0 to |group|
        invariant err == None
        invariant msgs == Merge(m0, group[..j])
        invariant SectionsAdded(c0, config.data, Names(group[..j]))
        invariant NoneRefused(c0, group[..j])
      {
        var checker := group[j];
        ghost var ci, mi := config.data, msgs;
        RefusedAt(c0, ci, group[..j], checker.name);
        if !HasSection(config.data, checker.name) {
          err := config.AddSection(checker.name);
          if err.Some? {
            SectionsAddedOnly(c0, ci, Names(group[..j]));
            NamesOfPrefix(group[..j], group);
            return;
          }
        }
        if checker.name !in msgs {
          msgs := msgs[checker.name := map[]];
        }
        msgs := msgs[checker.name := msgs[checker.name] + checker.msgs];
        assert msgs == Absorb(mi, checker);
        GroupStep(c0, ci, config.data, m0, group, j);
      }
      assert group[..|group|] == group;
      SectionsAddedOnly(c0, config.data, Names(group));
    }

    /** Lines 65-68: `on` for every code of the registry whose section has
        no switch for it. Up to the section that cannot be written, the
        parser gains those switches and nothing else. */
    method FillSwitches(config: Config) returns (err: Option<PyError>)
      modifies config
      ensures err.Some? <==> exists s | s in msgs && msgs[s] != map[] :: !Writable(old(config.data), s)
      ensures err.Some? ==> err == Some(NoSectionError)
      ensures err.None? ==> Switched(config.data, msgs, msgs.Keys)
      ensures GrowsBy(old(config.data), config.data, "on") && AddsOnly(old(config.data), config.data, Codes(msgs))
      ensures config.data.sections.Keys == old(config.data.sections.Keys)
    {
      ghost var c0 := config.data;
      GrowsByRefl(c0, "on");
      AddsOnlyRefl(c0, Codes(msgs));
      var todo := msgs.Keys;
      err := None;
      while todo != {}
        invariant todo <= msgs.Keys && err == None
        invariant GrowsBy(c0, config.data, "on") && config.data.sections.Keys == c0.sections.Keys
        invariant AddsOnly(c0, config.data, Codes(msgs))
        invariant Switched(config.data, msgs, msgs.Keys - todo)
        invariant forall s | s in msgs.Keys - todo && msgs[s] != map[] :: Writable(c0, s)
        decreases todo
      {
        var section :| section in todo;
        ghost var cur := config.data;
        err := SwitchSection(config, section, msgs[section].Keys);
        if err.Some? {
          return;
        }
        GrowsByTrans(c0, cur, config.data, "on");
        FillStep(c0, cur, config.data, msgs, section);
        SwitchedGrows(cur, config.data, msgs, msgs.Keys - todo);
        todo := todo - {section};
      }
    }

    /** The inner loop of lines 65-68, over the codes of one section: a
        switch `on` for each code that has none, in the section or in
        DEFAULT for the names that denote it, and nothing else. */
    method SwitchSection(config: Config, section: string, codes: set<string>) returns (err: Option<PyError>)
      modifies config
      ensures err.Some? <==> codes != {} && !Writable(old(config.data), section)
      ensures err.Some? ==> err == Some(NoSectionError) && config.data == old(config.data)
      ensures err.None? ==> forall k | k in codes :: HasOption(config.data, section, k)
      ensures GrowsBy(old(config.data), config.data, "on") && AddsOnly(old(config.data), config.data, map[section := codes])
      ensures config.data.sections.Keys == old(config.data.sections.Keys)
    {
      ghost var c0 := config.data;
      GrowsByRefl(c0, "on");
      AddsOnlyRefl(c0, map[section := codes]);
      var todo := codes;
      err := None;
      while todo != {}
        invariant todo <= codes && err == None
        invariant GrowsBy(c0, config.data, "on") && config.data.sections.Keys == c0.sections.Keys
        invariant AddsOnly(c0, config.data, map[section := codes])
        invariant forall k | k in codes - todo :: HasOption(config.data, section, k)
        invariant todo != codes ==> Writable(c0, section)
        invariant !Writable(c0, section) ==> config.data == c0
        decreases todo
      {
        var code :| code in todo;
        ghost var cur := config.data;
        if !HasOption(config.data, section, code) {
          err := config.Set(section, code, "on");
          if err.Some? {
            return;
          }
          SetMissingGrows(cur, section, code, "on");
          GrowsByTrans(c0, cur, config.data, "on");
          SwitchStep(c0, cur, section, codes, code);
          forall k | k in codes - todo
            ensures HasOption(config.data, section, k)
          {
            GrowsKeepsOptions(cur, config.data, "on", section, k);
          }
        }
        todo := todo - {code};
      }
    }
  }

  /** No checker of `cs` has a name `add_section` refuses in `c`. */
  predicate NoneRefused(c: ConfigData, cs: seq<Checker>)
  {
    forall k | 0 <= k < |cs| :: !Refused(c, cs[k].name)
  }

  /** Adding sections for names none of which is refused refuses nothing
      more. */
  lemma RefusedSame(c: ConfigData, d: ConfigData, cs: seq<Checker>)
    requires SectionsAdded(c, d, Names(cs)) && NoneRefused(c, cs)
    ensures forall n :: Refused(d, n) == Refused(c, n)
  {
    forall n
      ensures Refused(d, n) == Refused(c, n)
    {
      if n in Names(cs) {
        var k :| 0 <= k < |cs| && cs[k].name == n;
      }
    }
  }

  /** A name refused after sections were added for unrefused names was
      refused before. */
  lemma RefusedAt(c: ConfigData, d: ConfigData, cs: seq<Checker>, n: string)
    requires SectionsAdded(c, d, Names(cs)) && NoneRefused(c, cs)
    ensures Refused(d, n) == Refused(c, n)
  {
    if n in Names(cs) {
      var k :| 0 <= k < |cs| && cs[k].name == n;
    }
  }

  /** One checker of the inner loop keeps its invariants: its section is
      there afterwards, added empty if it was missing, and its messages are
      absorbed. */
  lemma GroupStep(c0: ConfigData, ci: ConfigData, d: ConfigData, m0: Registry, group: seq<Checker>, j: nat)
    requires j < |group| && SectionsAdded(c0, ci, Names(group[..j])) && NoneRefused(c0, group[..j])
    requires !Refused(c0, group[j].name)
    requires (HasSection(ci, group[j].name) && d == ci) || (!HasSection(ci, group[j].name) && WithSection(ci, group[j].name) == Ok(d))
    ensures SectionsAdded(c0, d, Names(group[..j + 1]))
    ensures NoneRefused(c0, group[..j + 1])
    ensures Merge(m0, group[..j + 1]) == Absorb(Merge(m0, group[..j]), group[j])
  {
    assert group[..j + 1] == group[..j] + [group[j]];
    NamesSnoc(group[..j], group[j]);
  }

  lemma NoneRefusedAppend(c: ConfigData, cs: seq<Checker>, more: seq<Checker>)
    requires NoneRefused(c, cs) && NoneRefused(c, more)
    ensures NoneRefused(c, cs + more)
  {
    forall k | 0 <= k < |cs + more|
      ensures !Refused(c, (cs + more)[k].name)
    {
      if k >= |cs| {
        assert (cs + more)[k] == more[k - |cs|];
      }
    }
  }

  lemma {:induction false} MergeAppend(m: Registry, cs: seq<Checker>, more: seq<Checker>)
    ensures Merge(m, cs + more) == Merge(Merge(m, cs), more)
    decreases |more|
  {
    if more == [] {
      assert cs + more == cs;
    } else {
      var p := more[..|more| - 1];
      assert (cs + more)[..|cs + more| - 1] == cs + p;
      MergeAppend(m, cs, p);
    }
  }

  lemma SectionsAddedTrans(c: ConfigData, d: ConfigData, e: ConfigData, n1: set<string>, n2: set<string>)
    requires SectionsAdded(c, d, n1) && SectionsAdded(d, e, n2)
    ensures SectionsAdded(c, e, n1 + n2)
  {
  }

  lemma NamesAppend(cs: seq<Checker>, more: seq<Checker>)
    ensures Names(cs + more) == Names(cs) + Names(more)
  {
    forall n | n in Names(cs + more)
      ensures n in Names(cs) + Names(more)
    {
      var k :| 0 <= k < |cs + more| && (cs + more)[k].name == n;
      if k >= |cs| {
        assert more[k - |cs|] == (cs + more)[k];
      }
    }
    forall n | n in Names(more)
      ensures n in Names(cs + more)
    {
      var k :| 0 <= k < |more| && more[k].name == n;
      assert (cs + more)[|cs| + k] == more[k];
    }
    forall n | n in Names(cs)
      ensures n in Names(cs + more)
    {
      var k :| 0 <= k < |cs| && cs[k].name == n;
      assert (cs + more)[k] == cs[k];
    }
  }

  /** Options of `c` stay switched as `c` grows. */
  lemma SwitchedGrows(c: ConfigData, d: ConfigData, m: Registry, done: set<string>)
    requires GrowsBy(c, d, "on") && Switched(c, m, done)
    ensures Switched(d, m, done)
  {
    forall s, k | s in done && s in m && k in m[s]
      ensures HasOption(d, s, k)
    {
      GrowsKeepsOptions(c, d, "on", s, k);
    }
  }

  /** Adding sections, and no options, grows the content. */
  lemma SectionsAddedOnly(c: ConfigData, d: ConfigData, names: set<string>)
    requires SectionsAdded(c, d, names)
    ensures GrowsBy(c, d, "on") && AddsOnly(c, d, map[])
  {
  }

  /** A checker list's prefix names no checker the list does not. */
  lemma NamesOfPrefix(cs: seq<Checker>, more: seq<Checker>)
    requires cs <= more
    ensures Names(cs) <= Names(more)
  {
    forall n | n in Names(cs)
      ensures n in Names(more)
    {
      var k :| 0 <= k < |cs| && cs[k].name == n;
      assert more[k] == cs[k];
    }
  }

  lemma AddsOnlyRefl(c: ConfigData, codes: map<string, set<string>>)
    ensures AddsOnly(c, c, codes)
  {
  }

  /** Two steps that each add switches of `codes` (the first of a part of
      them) together add switches of `codes` only. */
  lemma AddsOnlyTrans(c: ConfigData, d: ConfigData, e: ConfigData, part: map<string, set<string>>, codes: map<string, set<string>>)
    requires AddsOnly(c, d, part) && AddsOnly(d, e, codes)
    requires forall s | s in part :: s in codes && part[s] <= codes[s]
    ensures AddsOnly(c, e, codes)
  {
    forall s, k | s in e.sections && k in e.sections[s] && !(s in c.sections && k in c.sections[s])
      ensures s in codes && k in Lowered(codes[s])
    {
      if s in d.sections && k in d.sections[s] {
        LoweredMono(part[s], codes[s]);
      }
    }
    forall k | k in e.defaults && k !in c.defaults
      ensures ("" in codes && k in Lowered(codes[""])) || (DefaultSection in codes && k in Lowered(codes[DefaultSection]))
    {
      if k in d.defaults {
        if "" in part && k in Lowered(part[""]) {
          LoweredMono(part[""], codes[""]);
        } else {
          LoweredMono(part[DefaultSection], codes[DefaultSection]);
        }
      }
    }
  }

  /** Switching one section's codes keeps to the registry's codes. */
  lemma FillStep(c0: ConfigData, cur: ConfigData, d: ConfigData, m: Registry, section: string)
    requires section in m
    requires AddsOnly(c0, cur, Codes(m)) && AddsOnly(cur, d, map[section := m[section].Keys])
    ensures AddsOnly(c0, d, Codes(m))
  {
    AddsOnlyRefl(d, Codes(m));
    AddsOnlyTrans(cur, d, d, map[section := m[section].Keys], Codes(m));
    AddsOnlyTrans(c0, cur, d, Codes(m), Codes(m));
  }

  lemma LoweredMono(a: set<string>, b: set<string>)
    requires a <= b
    ensures Lowered(a) <= Lowered(b)
  {
  }

  /** Writing the switch of one of the section's codes adds only that. */
  lemma SwitchStep(c0: ConfigData, cur: ConfigData, section: string, codes: set<string>, code: string)
    requires AddsOnly(c0, cur, map[section := codes]) && code in codes
    requires WithOption(cur, section, code, "on").Ok?
    ensures AddsOnly(c0, WithOption(cur, section, code, "on").value, map[section := codes])
  {
    assert LowerStr(code) in Lowered(codes);
  }

  lemma NamesSnoc(cs: seq<Checker>, c: Checker)
    ensures Names(cs + [c]) == Names(cs) + {c.name}
  {
    assert forall i | 0 <= i < |cs| :: (cs + [c])[i] == cs[i];
    assert (cs + [c])[|cs|] == c;
  }

  /** A checker among the first ones is among all of them. */
  lemma FlattenPrefixHas(groups: seq<seq<Checker>>, i: nat, prefix: seq<Checker>, k: nat)
    requires i < |groups| && k < |prefix|
    requires prefix <= Flatten(groups[..i]) + groups[i]
    ensures exists j | 0 <= j < |Flatten(groups)| :: Flatten(groups)[j] == prefix[k]
  {
    FlattenPrefix(groups, i + 1);
    FlattenStep(groups, i);
    assert Flatten(groups)[k] == prefix[k];
  }

  lemma {:induction false} FlattenPrefix(groups: seq<seq<Checker>>, n: nat)
    requires n <= |groups|
    ensures Flatten(groups[..n]) <= Flatten(groups)
    decreases |groups| - n
  {
    if n < |groups| {
      FlattenPrefix(groups, n + 1);
      FlattenStep(groups, n);
    } else {
      assert groups[..n] == groups;
    }
  }
}
