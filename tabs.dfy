/** The Tabs component: children are split into triggers and contents by
    their component's displayName, one tab value is active, a trigger click
    makes its value active, and the first content with the active value is
    shown. */
module TabsUi {
  import opened Wrappers

  /** A child as React.Children.toArray yields it: an element, whose
      component may carry a displayName and whose props may carry a value,
      or a text node, which has no type at all. */
  datatype Child = Element(displayName: Option<string>, value: Option<string>) | Text

  const TriggerTag: string := "TabsTrigger"
  const ContentTag: string := "TabsContent"

  /** The children whose component is tagged tag, in order; None when the
      filter throws because a text child has no type to read displayName on. */
  function Select(children: seq<Child>, tag: string): (r: Option<seq<Child>>)
    ensures r.Some? <==> forall c :: c in children ==> c.Element?
    ensures r.Some? ==> forall c :: c in r.value <==> c in children && c.Element? && c.displayName == Some(tag)
    ensures r.Some? ==> |r.value| <= |children|
  {
    if children == [] then Some([])
    else
      var rest := Select(children[1..], tag);
      assert children[0] in children;
      assert forall c :: c in children[1..] ==> c in children;
      if children[0].Text? || rest.None? then None
      else if children[0].displayName == Some(tag) then Some([children[0]] + rest.value)
      else rest
  }

  /** The filter keeps the children's order: selecting from a concatenation
      concatenates the selections. */
  lemma {:induction false} SelectAppend(a: seq<Child>, b: seq<Child>, tag: string)
    requires Select(a, tag).Some? && Select(b, tag).Some?
    ensures Select(a + b, tag) == Some(Select(a, tag).value + Select(b, tag).value)
  {
    if a == [] {
      assert a + b == b;
      assert Select(a, tag).value + Select(b, tag).value == Select(b, tag).value;
    } else {
      assert (a + b)[0] == a[0];
      assert (a + b)[1..] == a[1..] + b;
      SelectAppend(a[1..], b, tag);
      assert a[0] in a;
      var x, y := Select(a[1..], tag).value, Select(b, tag).value;
      assert [a[0]] + (x + y) == ([a[0]] + x) + y;
    }
  }

  /** Triggers and contents never share a child, and a child tagged with
      neither (TabsList among them) is in neither list and so never rendered. */
  lemma PartitionDisjoint(children: seq<Child>)
    requires forall c :: c in children ==> c.Element?
    ensures forall c :: c in Select(children, TriggerTag).value ==> c !in Select(children, ContentTag).value
    ensures forall c :: c in children && c.displayName != Some(TriggerTag) && c.displayName != Some(ContentTag) ==>
      c !in Select(children, TriggerTag).value && c !in Select(children, ContentTag).value
  {
  }

  /** The isActive prop each trigger is cloned with: strict equality of its
      value with the active tab (two undefined values are equal). */
  function ActiveFlags(triggers: seq<Child>, activeTab: Option<string>): (r: seq<bool>)
    requires forall c :: c in triggers ==> c.Element?
    ensures |r| == |triggers|
  {
    if triggers == [] then [] else [triggers[0].value == activeTab] + ActiveFlags(triggers[1..], activeTab)
  }

  /** A trigger is marked active if and only if its value is the active tab. */
  lemma {:induction false} ActiveFlagsAt(triggers: seq<Child>, activeTab: Option<string>, i: nat)
    requires forall c :: c in triggers ==> c.Element?
    requires i < |triggers|
    ensures ActiveFlags(triggers, activeTab)[i] <==> triggers[i].value == activeTab
  {
    if i > 0 {
      assert triggers[1..][i - 1] == triggers[i];
      ActiveFlagsAt(triggers[1..], activeTab, i - 1);
    }
  }

  /** With distinct trigger values, at most one trigger is active. */
  lemma AtMostOneActive(triggers: seq<Child>, activeTab: Option<string>, i: nat, j: nat)
    requires forall c :: c in triggers ==> c.Element?
    requires forall p, q :: 0 <= p < q < |triggers| ==> triggers[p].value != triggers[q].value
    requires i < |triggers| && j < |triggers|
    requires ActiveFlags(triggers, activeTab)[i] && ActiveFlags(triggers, activeTab)[j]
    ensures i == j
  {
    ActiveFlagsAt(triggers, activeTab, i);
    ActiveFlagsAt(triggers, activeTab, j);
  }

  /** tabContents.find: the index of the first content whose value is the
      active tab, or None when no content matches. */
  function FirstMatch(contents: seq<Child>, activeTab: Option<string>): (r: Option<nat>)
    requires forall c :: c in contents ==> c.Element?
    ensures r.Some? ==> r.value < |contents| && contents[r.value].value == activeTab
    ensures r.Some? ==> forall j :: 0 <= j < r.value ==> contents[j].value != activeTab
    ensures r.None? <==> forall j :: 0 <= j < |contents| ==> contents[j].value != activeTab
  {
    if contents == [] then None
    else if contents[0].value == activeTab then Some(0)
    else
      var rest := FirstMatch(contents[1..], activeTab);
      if rest.None? then None else Some(rest.value + 1)
  }

  /** What a render produces: the triggers with their isActive flags, and
      the shown content. */
  datatype View = View(triggers: seq<Child>, active: seq<bool>, shown: Option<Child>)

  /** The Tabs component's state: the active tab value. */
  class Tabs {
    var activeTab: Option<string>

    /** useState(defaultValue). */
    constructor (defaultValue: Option<string>)
      ensures activeTab == defaultValue
    {
      activeTab := defaultValue;
    }

    /** The render: None when the partition throws. Otherwise the triggers
        are the TabsTrigger children in order, each flagged with whether its
        value is the active tab, and the shown content is the first
        TabsContent child with that value, if any. */
    function Render(children: seq<Child>): (v: Option<View>)
      reads this
      ensures v.Some? <==> forall c :: c in children ==> c.Element?
      ensures v.Some? ==> |v.value.active| == |v.value.triggers|
      ensures v.Some? ==> forall c :: c in v.value.triggers <==>
        c in children && c.Element? && c.displayName == Some(TriggerTag)
      ensures v.Some? ==> forall i :: 0 <= i < |v.value.triggers| ==>
        (v.value.active[i] <==> v.value.triggers[i].value == activeTab)
      ensures v.Some? ==> v.value.triggers == Select(children, TriggerTag).value
      ensures v.Some? ==>
        var cs := Select(children, ContentTag).value;
        var f := FirstMatch(cs, activeTab);
        v.value.shown == (if f.None? then None else Some(cs[f.value]))
      ensures v.Some? && v.value.shown.Some? ==>
        v.value.shown.value in children && v.value.shown.value.displayName == Some(ContentTag) &&
        v.value.shown.value.value == activeTab
    {
      var triggers := Select(children, TriggerTag);
      var contents := Select(children, ContentTag);
      if triggers.None? || contents.None? then None
      else
        var first := FirstMatch(contents.value, activeTab);
        var flags := ActiveFlags(triggers.value, activeTab);
        assert forall i :: 0 <= i < |triggers.value| ==> (flags[i] <==> triggers.value[i].value == activeTab) by {
          forall i | 0 <= i < |triggers.value| {
            ActiveFlagsAt(triggers.value, activeTab, i);
          }
        }
        Some(View(triggers.value, flags,
                  if first.None? then None else Some(contents.value[first.value])))
    }

    /** A trigger's onClick: its value becomes the active tab, so clicking
        the active trigger again changes nothing. */
    method Click(trigger: Child)
      requires trigger.Element?
      modifies this
      ensures activeTab == trigger.value
      ensures old(activeTab) == trigger.value ==> activeTab == old(activeTab)
    {
      activeTab := trigger.value;
    }
  }
}
