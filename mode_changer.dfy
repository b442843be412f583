/**
 The mode changer node itself: one toggle widget per linked graph node, kept
 in step with that node's integer mode. The widget list and the linked nodes
 are sequence fields that the methods reassign; widget i controls node i.
 Each method is proved against the function of ModeChangerSpec that says what
 it computes.
 */
module ModeChanger {
  import opened ModeChangerSpec

  class BaseNodeModeChanger {
    /** The mode that means "enabled" and the one that means "disabled". */
    const modeOn: int
    const modeOff: int
    /** The "toggleRestriction" property. */
    var restriction: string
    /** When the last resync pass ran, in milliseconds. */
    var lastCheck: int
    var widgets: seq<Widget>
    /** The linked nodes, as the host's traversal of the inputs reports them. */
    var nodes: seq<LinkedNode>

    function Config(): Settings
      reads this
    {
      Settings(modeOn, modeOff, restriction)
    }

    function State(): Panel
      reads this
    {
      Panel(widgets, nodes)
    }

    /** Every widget has its node and every node its widget: established by the
        constructor and by every stabilization, kept by every other method. */
    predicate Paired()
      reads this
    {
      |widgets| == |nodes|
    }

    /** A concrete changer fixes both modes; neither may be negative. */
    constructor (modeOn: int, modeOff: int)
      requires modeOn >= 0 && modeOff >= 0
      ensures this.modeOn == modeOn && this.modeOff == modeOff
      ensures restriction == DefaultRestriction && lastCheck == 0
      ensures widgets == [] && nodes == []
      ensures Paired()
    {
      this.modeOn := modeOn;
      this.modeOff := modeOff;
      restriction := DefaultRestriction;
      lastCheck := 0;
      widgets := [];
      nodes := [];
    }

    /** The periodic resync, run on every redraw but at most once per
        interval: every widget that has a node takes the value "the node is at
        modeOn". Node modes are never changed. */
    method OnDrawForeground(now: int)
      modifies this`lastCheck, this`widgets
      ensures old(Paired()) ==> Paired()
      ensures !CheckDue(now, old(lastCheck)) ==> lastCheck == old(lastCheck) && widgets == old(widgets)
      ensures CheckDue(now, old(lastCheck)) ==>
        lastCheck == now && widgets == Synced(old(widgets), nodes, modeOn)
    {
      if now - lastCheck < ModeCheckInterval {
        return;
      }
      lastCheck := now;
      var i := 0;
      while i < |widgets| && i < |nodes|
        invariant 0 <= i <= |widgets| == |old(widgets)| && lastCheck == now
        invariant forall j | 0 <= j < i :: widgets[j] == Synced(old(widgets), nodes, modeOn)[j]
        invariant forall j | i <= j < |widgets| :: widgets[j] == old(widgets)[j]
      {
        var expected := nodes[i].mode == modeOn;
        if widgets[i].value != expected {
          widgets := widgets[i := widgets[i].(value := expected)];
        }
        i := i + 1;
      }
    }

    /** Grow or truncate the widget list to the linked nodes and label every
        widget for its node; the result says whether anything changed. */
    method HandleLinkedNodesStabilization(linked: seq<LinkedNode>) returns (changed: bool)
      modifies this`widgets, this`nodes
      ensures nodes == linked
      ensures Paired()
      ensures widgets == Stabilized(old(widgets), linked, modeOn)
      ensures changed == StabilizeChanged(old(widgets), linked)
    {
      nodes := linked;
      changed := false;
      var index := 0;
      while index < |linked|
        invariant 0 <= index <= |linked| && nodes == linked
        invariant |widgets| == if index <= |old(widgets)| then |old(widgets)| else index
        invariant forall j | 0 <= j < index :: widgets[j] == StabilizedAt(old(widgets), linked, j, modeOn)
        invariant forall j | index <= j < |widgets| :: widgets[j] == old(widgets)[j]
        invariant changed == (index > |old(widgets)| || Mislabelled(old(widgets), linked, index))
      {
        if index >= |widgets| {
          widgets := widgets + [NewToggle];
          changed := true;
        }
        var c := SetWidget(index, None);
        changed := c || changed;
        index := index + 1;
      }
      if |widgets| > |linked| {
        widgets := widgets[..|linked|];
        changed := true;
      }
    }

    /** Label widget i for node i and, with a forced value, set the node to
        the matching mode; the result says whether anything changed. */
    method SetWidget(i: nat, force: Option<bool>) returns (changed: bool)
      requires i < |widgets| && i < |nodes|
      modifies this`widgets, this`nodes
      ensures old(Paired()) ==> Paired()
      ensures var o := SetWidgetEffect(old(widgets[i]), old(nodes[i]), force, Config());
        && widgets == old(widgets)[i := o.widget]
        && nodes == old(nodes)[i := o.node]
        && changed == o.changed
    {
      changed := false;
      var value := if force.None? then nodes[i].mode == modeOn else force.value;
      var name := Label(nodes[i]);
      if widgets[i].name != name {
        widgets := widgets[i := Widget(name, value)];
        changed := true;
      }
      if force.Some? {
        var newMode := if force.value then modeOn else modeOff;
        if nodes[i].mode != newMode {
          nodes := nodes[i := nodes[i].(mode := newMode)];
          changed := true;
        }
      }
    }

    /** Switch widget i, to the forced value or, without one, on exactly when
        its node is at modeOff, applying the restriction policy unless skip. */
    method DoModeChange(i: nat, force: Option<bool>, skip: bool)
      requires i < |widgets| <= |nodes|
      modifies this`widgets, this`nodes
      ensures old(Paired()) ==> Paired()
      ensures State() == ModeChange(old(State()), i, force, skip, Config())
      decreases if skip then 0 else 1
    {
      var newValue := if force.None? then nodes[i].mode == modeOff else force.value;
      if !skip {
        if newValue && IncludesOne(restriction) {
          var k := 0;
          while k < |widgets|
            invariant 0 <= k <= |widgets| == |old(widgets)| && |nodes| == |old(nodes)|
            invariant forall j | 0 <= j < k :: widgets[j] == old(widgets)[j].(value := false)
            invariant forall j | 0 <= j < k :: nodes[j] == old(nodes)[j].(mode := modeOff)
            invariant forall j | k <= j < |widgets| :: widgets[j] == old(widgets)[j]
            invariant forall j | k <= j < |nodes| :: nodes[j] == old(nodes)[j]
          {
            DoModeChange(k, Some(false), true);
            k := k + 1;
          }
          assert State() == AllSwitchedOff(old(State()), Config());
        } else if !newValue && restriction == AlwaysOne {
          newValue := OthersOff(widgets, i);
        }
      }
      nodes := nodes[i := nodes[i].(mode := if newValue then modeOn else modeOff)];
      widgets := widgets[i := widgets[i].(value := newValue)];
    }

    /** The widget's click handler: switch without a forced value. */
    method WidgetCallback(i: nat)
      requires i < |widgets| <= |nodes|
      modifies this`widgets, this`nodes
      ensures old(Paired()) ==> Paired()
      ensures State() == ModeChange(old(State()), i, None, false, Config())
    {
      DoModeChange(i, None, false);
    }

    method ForceWidgetOff(i: nat, skip: bool)
      requires i < |widgets| <= |nodes|
      modifies this`widgets, this`nodes
      ensures old(Paired()) ==> Paired()
      ensures State() == ModeChange(old(State()), i, Some(false), skip, Config())
    {
      DoModeChange(i, Some(false), skip);
    }

    method ForceWidgetOn(i: nat, skip: bool)
      requires i < |widgets| <= |nodes|
      modifies this`widgets, this`nodes
      ensures old(Paired()) ==> Paired()
      ensures State() == ModeChange(old(State()), i, Some(true), skip, Config())
    {
      DoModeChange(i, Some(true), skip);
    }

    /** Switch widget i to the opposite of the value it shows. */
    method ForceWidgetToggle(i: nat, skip: bool)
      requires i < |widgets| <= |nodes|
      modifies this`widgets, this`nodes
      ensures old(Paired()) ==> Paired()
      ensures State() == ModeChange(old(State()), i, Some(!old(widgets[i].value)), skip, Config())
    {
      DoModeChange(i, Some(!widgets[i].value), skip);
    }
  }
}
