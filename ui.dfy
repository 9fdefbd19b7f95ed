/**
 * The workspace tab bar. Tabs are kept sorted by `order`; the settings tab has order 200
 * so that tabs registered later (orders 4, 5, ...) land before it.
 */
module UiTabs {
  import opened Seqs
  import opened Sorting

  /** A tab; its icon and component are not modelled. */
  datatype Tab = Tab(id: string, caption: string, order: int)

  datatype TabDefinition = TabDefinition(id: string, caption: string)

  const SETTINGS := Tab("settings", "Configurações", 200)

  const INITIAL_TABS := [Tab("map", "Mapa", 1), Tab("timeline", "Timeline", 2), Tab("characters", "Personagens", 3), SETTINGS]

  /** The comparator `a.order - b.order`, as "at most equal". */
  function ByOrder(a: Tab, b: Tab): bool {
    a.order <= b.order
  }

  lemma ByOrderIsTotalPreorder()
    ensures Total(ByOrder) && Transitive(ByOrder)
  {
  }

  /** The tab `registerTab` pushes: one past the order of the tab before the last. */
  function NewTab(tabs: seq<Tab>, def: TabDefinition): Tab
    requires |tabs| >= 2
  {
    Tab(def.id, def.caption, tabs[|tabs| - 2].order + 1)
  }

  /** `registerTab`: push the new tab, then sort by order. */
  function Registered(tabs: seq<Tab>, def: TabDefinition): (r: seq<Tab>)
    requires |tabs| >= 2
    ensures |r| == |tabs| + 1
    ensures multiset(r) == multiset(tabs) + multiset{NewTab(tabs, def)}
    ensures SortedBy(r, ByOrder)
  {
    ByOrderIsTotalPreorder();
    SortBySorted(tabs + [NewTab(tabs, def)], ByOrder);
    SortBy(tabs + [NewTab(tabs, def)], ByOrder)
  }

  /** The bar after `n` registrations, `n` below 197: orders 1 .. n + 3, then the settings tab. */
  ghost predicate Canonical(tabs: seq<Tab>, n: nat) {
    && n < 197
    && |tabs| == n + 4
    && (forall i :: 0 <= i < n + 3 ==> tabs[i].order == i + 1)
    && tabs[n + 3] == SETTINGS
  }

  lemma CanonicalSorted(tabs: seq<Tab>, n: nat)
    requires Canonical(tabs, n)
    ensures SortedBy(tabs, ByOrder)
    ensures forall i :: 0 <= i < n + 3 ==> tabs[i].order <= n + 3
  {
    forall i, j | 0 <= i < j < |tabs| ensures ByOrder(tabs[i], tabs[j]) {
      if j == n + 3 {
        assert tabs[j].order == 200;
      }
    }
  }

  /** The bar with `t` put just before the settings tab. */
  lemma InsertedBeforeSettings(tabs: seq<Tab>, n: nat, t: Tab)
    requires Canonical(tabs, n) && t.order == n + 4 && n + 1 < 197
    ensures Canonical(tabs[..n + 3] + [t] + [SETTINGS], n + 1)
  {
    var r := tabs[..n + 3] + [t] + [SETTINGS];
    forall i | 0 <= i < n + 4 ensures r[i].order == i + 1 {
      if i < n + 3 {
        assert r[i] == tabs[i];
      }
    }
  }

  /** While the next order stays below 200, a registered tab goes just before settings. */
  lemma RegisterBeforeSettings(tabs: seq<Tab>, n: nat, def: TabDefinition)
    requires Canonical(tabs, n) && n + 1 < 197
    ensures Registered(tabs, def) == tabs[..n + 3] + [Tab(def.id, def.caption, n + 4)] + [SETTINGS]
    ensures Canonical(Registered(tabs, def), n + 1)
  {
    var t := NewTab(tabs, def);
    assert t == Tab(def.id, def.caption, n + 4);
    CanonicalSorted(tabs, n);
    SortAppendBeforeLast(tabs, t, ByOrder);
    InsertedBeforeSettings(tabs, n, t);
  }

  lemma RegisterStep(tabs: seq<Tab>, n: nat, def: TabDefinition)
    requires Canonical(tabs, n) && n + 1 < 197
    ensures Canonical(Registered(tabs, def), n + 1)
  {
    RegisterBeforeSettings(tabs, n, def);
  }

  /** Registering the definitions one after another. */
  function RegisterAll(tabs: seq<Tab>, defs: seq<TabDefinition>): (r: seq<Tab>)
    requires |tabs| >= 2
    ensures |r| == |tabs| + |defs|
  {
    if |defs| == 0 then tabs
    else Registered(RegisterAll(tabs, defs[..|defs| - 1]), defs[|defs| - 1])
  }

  /** Fewer than 197 registrations from the initial bar keep settings last and orders 1, 2, 3, .... */
  lemma {:induction false} SettingsStaysLast(tabs: seq<Tab>, n: nat, defs: seq<TabDefinition>)
    requires Canonical(tabs, n) && n + |defs| < 197
    ensures Canonical(RegisterAll(tabs, defs), n + |defs|)
    ensures RegisterAll(tabs, defs)[n + |defs| + 3] == SETTINGS
  {
    if |defs| > 0 {
      var init := defs[..|defs| - 1];
      SettingsStaysLast(tabs, n, init);
      RegisterStep(RegisterAll(tabs, init), n + |init|, defs[|defs| - 1]);
    }
  }

  lemma InitialIsCanonical()
    ensures Canonical(INITIAL_TABS, 0)
  {
  }

  /** The 197th registration gets order 200 and, the sort being stable, lands after settings. */
  lemma SettingsLosesLastPlace(tabs: seq<Tab>, def: TabDefinition)
    requires Canonical(tabs, 196)
    ensures Registered(tabs, def)[|tabs|] == Tab(def.id, def.caption, 200)
  {
    var t := NewTab(tabs, def);
    assert SortedBy(tabs, ByOrder);
    SortByAppend(tabs, t, ByOrder);
    InsertAfterAll(t, tabs, ByOrder);
  }

  class UIManager {
    var tabs: seq<Tab>

    constructor ()
      ensures tabs == INITIAL_TABS
    {
      tabs := INITIAL_TABS;
    }

    /** `registerTab`; a bar with fewer than two tabs would make `tabs[length - 2]` undefined. */
    method RegisterTab(def: TabDefinition)
      requires |tabs| >= 2
      modifies this
      ensures tabs == Registered(old(tabs), def)
    {
      var t := Tab(def.id, def.caption, tabs[|tabs| - 2].order + 1);
      tabs := SortBy(tabs + [t], ByOrder);
    }

    /** `sortedTabs`: a sorted copy; the bar itself is not touched. */
    function SortedTabs(): (r: seq<Tab>)
      reads this
      ensures multiset(r) == multiset(tabs) && SortedBy(r, ByOrder)
    {
      ByOrderIsTotalPreorder();
      SortBySorted(tabs, ByOrder);
      SortBy(tabs, ByOrder)
    }
  }
}
