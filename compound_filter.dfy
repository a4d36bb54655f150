/**
 * CompoundFilter of the timeline: a filter with sub-filters whose active and
 * disabled states its listeners keep in step with its own.
 *
 * The parent's two property listeners are `SetActive` and `SetDisabled` (each
 * fires only when the value changes, as a JavaFX change listener does); the
 * listener addListeners puts on each sub-filter is `SubFilterActiveChanged`.
 * The pure transition functions state each rule on the values of the states.
 */
module CompoundFilterModel {

  /** The state of one sub-filter. */
  datatype SubState = SubState(active: bool, disabled: bool)

  /** noneMatch(Filter::isActive) */
  predicate NoneActive(subs: seq<SubState>) { forall i :: 0 <= i < |subs| ==> !subs[i].active }

  /** allMatch(Filter::isActive) */
  predicate AllActive(subs: seq<SubState>) { forall i :: 0 <= i < |subs| ==> subs[i].active }

  /** anyMatch(Filter::isActive) */
  predicate AnyActive(subs: seq<SubState>) { exists i :: 0 <= i < |subs| && subs[i].active }

  /**
   * Lines 73-94, the listener on the parent's active property: becoming active
   * with no active sub-filter activates them all, becoming inactive with every
   * sub-filter active deactivates them all; otherwise the sub-filters keep
   * their active states. Either way each sub-filter ends disabled exactly when
   * the parent is now inactive.
   */
  function AfterActiveChange(newValue: bool, subs: seq<SubState>): (r: seq<SubState>)
    ensures |r| == |subs|
    ensures newValue && NoneActive(subs) ==> forall i :: 0 <= i < |r| ==> r[i].active
    ensures newValue && !NoneActive(subs) ==> forall i :: 0 <= i < |r| ==> r[i].active == subs[i].active
    ensures !newValue && AllActive(subs) ==> forall i :: 0 <= i < |r| ==> !r[i].active
    ensures !newValue && !AllActive(subs) ==> forall i :: 0 <= i < |r| ==> r[i].active == subs[i].active
    ensures forall i :: 0 <= i < |r| ==> r[i].disabled == !newValue
  {
    var reset := if newValue then NoneActive(subs) else AllActive(subs);
    seq(|subs|, i requires 0 <= i < |subs| => SubState(if reset then newValue else subs[i].active, !newValue))
  }

  /**
   * Lines 59-70, the listener on the parent's disabled property: becoming
   * disabled disables every sub-filter; becoming enabled sets each sub-filter's
   * disabled to "the parent is not active". Active states are untouched.
   */
  function AfterDisabledChange(newValue: bool, parentActive: bool, subs: seq<SubState>): (r: seq<SubState>)
    ensures |r| == |subs|
    ensures forall i :: 0 <= i < |r| ==> r[i].active == subs[i].active
    ensures newValue ==> forall i :: 0 <= i < |r| ==> r[i].disabled
    ensures !newValue ==> forall i :: 0 <= i < |r| ==> r[i].disabled == !parentActive
  {
    seq(|subs|, i requires 0 <= i < |subs| => SubState(subs[i].active, newValue || !parentActive))
  }

  /** The parent's state and the states of its sub-filters, in list order. */
  datatype CompoundState = CompoundState(active: bool, disabled: bool, subs: seq<SubState>)

  /** setActive on the parent: its change listener runs only when the value changes. */
  function SetActiveStep(s: CompoundState, v: bool): CompoundState
  {
    if v == s.active then s else CompoundState(v, s.disabled, AfterActiveChange(v, s.subs))
  }

  /** setDisabled on the parent: its change listener runs only when the value changes. */
  function SetDisabledStep(s: CompoundState, v: bool): CompoundState
  {
    if v == s.disabled then s else CompoundState(s.active, v, AfterDisabledChange(v, s.active, s.subs))
  }

  /** Lines 100-103: a sub-filter's active state changed, so the parent becomes active iff any sub-filter is. */
  function SubFilterChangeStep(s: CompoundState): CompoundState
  {
    SetActiveStep(s, AnyActive(s.subs))
  }

  /**
   * The rule of lines 100-103 followed by the parent's own listener: the parent
   * ends active exactly when some sub-filter is active, no sub-filter's active
   * state changes (a parent made active already has an active sub-filter; a
   * parent made inactive has none, so they are not "all active" unless there
   * are none), and the disabled states change only when the parent's does.
   */
  lemma SubFilterChangeKeepsActives(s: CompoundState)
    ensures var t := SubFilterChangeStep(s);
            && t.active == AnyActive(s.subs) && t.disabled == s.disabled && |t.subs| == |s.subs|
            && (forall i :: 0 <= i < |s.subs| ==> t.subs[i].active == s.subs[i].active)
            && (t.active != s.active ==> forall i :: 0 <= i < |s.subs| ==> t.subs[i].disabled == !t.active)
            && (t.active == s.active ==> t.subs == s.subs)
  {
    var v := AnyActive(s.subs);
    if v != s.active {
      if v {
        var k :| 0 <= k < |s.subs| && s.subs[k].active;
        assert !NoneActive(s.subs);
      } else if s.subs != [] {
        assert !s.subs[0].active;
      }
    }
  }

  /** After the rule of lines 100-103 the parent is active exactly when one of its sub-filters is. */
  lemma SubFilterChangeConsistent(s: CompoundState)
    ensures var t := SubFilterChangeStep(s);
            t.active <==> AnyActive(t.subs)
  {
    SubFilterChangeKeepsActives(s);
    var t := SubFilterChangeStep(s);
    if AnyActive(s.subs) {
      var k :| 0 <= k < |s.subs| && s.subs[k].active;
      assert t.subs[k].active;
    }
  }

  /**
   * Activating a parent whose sub-filters are all inactive activates and
   * enables all of them; deactivating a parent whose sub-filters are all active
   * deactivates and disables all of them.
   */
  lemma ActivationCascades(s: CompoundState)
    ensures !s.active && NoneActive(s.subs) ==>
              forall i :: 0 <= i < |s.subs| ==> SetActiveStep(s, true).subs[i] == SubState(true, false)
    ensures s.active && AllActive(s.subs) ==>
              forall i :: 0 <= i < |s.subs| ==> SetActiveStep(s, false).subs[i] == SubState(false, true)
  {
  }

  /** A JavaFX-style boolean filter: a sub-filter of a compound filter. */
  class Filter {
    var active: bool
    var disabled: bool

    constructor (active: bool, disabled: bool)
      ensures this.active == active && this.disabled == disabled
    {
      this.active := active;
      this.disabled := disabled;
    }

    method SetActive(v: bool)
      modifies this
      ensures active == v && disabled == old(disabled)
    {
      active := v;
    }

    method SetDisabled(v: bool)
      modifies this
      ensures disabled == v && active == old(active)
    {
      disabled := v;
    }
  }

  class CompoundFilter {
    var active: bool
    var disabled: bool
    /** The sub-filters, in list order; a filter may occur more than once. */
    var subFilters: seq<Filter>
    /** The filters that addListeners has given the listener of lines 100-103, in order. */
    var listened: seq<Filter>

    /** The states of the sub-filters, in list order. */
    function States(): (r: seq<SubState>)
      reads this, subFilters
      ensures |r| == |subFilters|
      ensures forall i :: 0 <= i < |r| ==> r[i] == SubState(subFilters[i].active, subFilters[i].disabled)
    {
      seq(|subFilters|, i reads this, subFilters requires 0 <= i < |subFilters| =>
            SubState(subFilters[i].active, subFilters[i].disabled))
    }

    function State(): CompoundState
      reads this, subFilters
    {
      CompoundState(active, disabled, States())
    }

    /**
     * Lines 43-56: the sub-filters given, each with the listener of lines
     * 100-103. The parent's own active and disabled flags are whatever the
     * superclass constructor leaves them (AbstractFilter, which is not part of
     * this model), so they are parameters here; setting them does not fire the
     * listeners, which are not yet registered.
     */
    constructor (subFilters: seq<Filter>, active: bool, disabled: bool)
      ensures this.subFilters == subFilters && listened == subFilters
      ensures this.active == active && this.disabled == disabled
    {
      this.active := active;
      this.disabled := disabled;
      this.subFilters := subFilters;
      listened := [];
      new;
      AddListeners(subFilters);
    }

    /** Lines 97-105: registers the sub-filter listener on each of the given filters, in order. */
    method AddListeners(newSubfilters: seq<Filter>)
      modifies this`listened
      ensures listened == old(listened) + newSubfilters
    {
      for k := 0 to |newSubfilters|
        invariant listened == old(listened) + newSubfilters[..k]
      {
        listened := listened + [newSubfilters[k]];
      }
    }

    /** Lines 48-53: filters added to the list get the listener. */
    method AddSubFilters(added: seq<Filter>)
      modifies this`subFilters, this`listened
      ensures subFilters == old(subFilters) + added
      ensures listened == old(listened) + added
    {
      subFilters := subFilters + added;
      AddListeners(added);
    }

    /** Line 51: a filter removed from the list keeps its listener. */
    method RemoveSubFilter(i: nat)
      requires i < |subFilters|
      modifies this`subFilters
      ensures subFilters == old(subFilters[..i] + subFilters[i + 1..])
      ensures listened == old(listened)
    {
      subFilters := subFilters[..i] + subFilters[i + 1..];
    }

    /** forEach(filter -> filter.setActive(v)) */
    method SetAllSubActive(v: bool)
      modifies subFilters
      ensures forall j :: 0 <= j < |subFilters| ==>
                subFilters[j].active == v && subFilters[j].disabled == old(subFilters[j].disabled)
    {
      for k := 0 to |subFilters|
        invariant forall j :: 0 <= j < k ==> subFilters[j].active == v
        invariant forall j :: 0 <= j < |subFilters| ==> subFilters[j].disabled == old(subFilters[j].disabled)
      {
        subFilters[k].SetActive(v);
      }
    }

    /** forEach(t -> t.setDisabled(v)) */
    method SetAllSubDisabled(v: bool)
      modifies subFilters
      ensures forall j :: 0 <= j < |subFilters| ==>
                subFilters[j].disabled == v && subFilters[j].active == old(subFilters[j].active)
    {
      for k := 0 to |subFilters|
        invariant forall j :: 0 <= j < k ==> subFilters[j].disabled == v
        invariant forall j :: 0 <= j < |subFilters| ==> subFilters[j].active == old(subFilters[j].active)
      {
        subFilters[k].SetDisabled(v);
      }
    }

    /** Lines 73-94: the listener on the parent's active property, called with its new value. */
    method OnActiveChanged(newValue: bool)
      modifies subFilters
      ensures States() == AfterActiveChange(newValue, old(States()))
    {
      var subs := States();
      if newValue {
        if NoneActive(subs) {
          SetAllSubActive(true);
        }
      } else {
        if AllActive(subs) {
          SetAllSubActive(false);
        }
      }
      SetAllSubDisabled(!newValue);
    }

    /** Lines 59-70: the listener on the parent's disabled property, called with its new value. */
    method OnDisabledChanged(newValue: bool)
      modifies subFilters
      ensures States() == AfterDisabledChange(newValue, active, old(States()))
    {
      if newValue {
        SetAllSubDisabled(true);
      } else {
        var isActive := !active;
        SetAllSubDisabled(isActive);
      }
    }

    method SetActive(v: bool)
      modifies this`active, subFilters
      ensures State() == SetActiveStep(old(State()), v)
    {
      if v != active {
        active := v;
        OnActiveChanged(v);
      }
    }

    method SetDisabled(v: bool)
      modifies this`disabled, subFilters
      ensures State() == SetDisabledStep(old(State()), v)
    {
      if v != disabled {
        disabled := v;
        OnDisabledChanged(v);
      }
    }

    /**
     * Lines 100-103: the listener on a sub-filter's active property; it is there
     * only on the filters addListeners was given, removed ones included.
     */
    method SubFilterActiveChanged(f: Filter)
      modifies this`active, subFilters
      ensures f in old(listened) ==> State() == SubFilterChangeStep(old(State()))
      ensures f !in old(listened) ==> State() == old(State())
    {
      if f in listened {
        var anyActive := AnyActive(States());
        SetActive(anyActive);
      }
    }
  }
}
