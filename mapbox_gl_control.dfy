/**
  The control component: looks up a control the map already holds under the
  component's `idName` tag, unhides it or tags and adds the given control,
  swaps the control on update, and hides (long-lived) or removes it on
  destroy.
*/
module MapboxGlControl {
  import opened Wrappers
  import opened Json
  import opened Mapbox

  /** Position of the first control whose tag equals `idName`; `|cs|` when there is none. */
  function FirstTagged(cs: seq<Control>, idName: Option<string>): (i: nat)
    reads cs
    ensures i <= |cs|
    ensures i < |cs| ==> cs[i].idName == idName
    ensures forall j :: 0 <= j < i ==> cs[j].idName != idName
  {
    if cs == [] then 0
    else if cs[0].idName == idName then 0
    else 1 + FirstTagged(cs[1..], idName)
  }

  /**
    As written, `getControlFromMap(idName)`: the first control of
    `map._controls` whose `idName` is loosely equal to the argument, null
    when there is none. Loose equality makes null and undefined equal, so a
    component without an `idName` matches any control nobody tagged.
  */
  function ControlFromMap(cs: seq<Control>, idName: Option<string>): (r: Control?)
    reads cs
    ensures r == null <==> forall c :: c in cs ==> c.idName != idName
    ensures r != null ==> r in cs && r.idName == idName
    ensures r != null ==> exists i :: 0 <= i < |cs| && cs[i] == r && forall j :: 0 <= j < i ==> cs[j].idName != idName
  {
    var i := FirstTagged(cs, idName);
    if i < |cs| then cs[i] else null
  }

  /**
    Corrected lookup, which Init uses: only a control that a component
    tagged with this very `idName` is reused; a component without an
    `idName` always adds its own control.
  */
  function TaggedControl(cs: seq<Control>, idName: Option<string>): (r: Control?)
    reads cs
    ensures r == null <==> idName.None? || forall c :: c in cs ==> c.idName != idName
    ensures r != null ==> r in cs && r.idName == idName && idName.Some?
    ensures r != null ==> exists i :: 0 <= i < |cs| && cs[i] == r && forall j :: 0 <= j < i ==> cs[j].idName != idName
  {
    if idName.None? then null else ControlFromMap(cs, idName)
  }

  /**
    A map holding one of its own controls (the logo, say), which nobody
    tagged: as written, a component without an `idName` finds that control,
    so it unhides it instead of adding its own and, being short-lived,
    removes the map's control when it is destroyed. The corrected lookup
    finds nothing.
  */
  lemma UntaggedLookupFindsForeignControl(logo: Control)
    requires logo.idName == None
    ensures ControlFromMap([logo], None) == logo
    ensures RemoveFirst([logo], logo) == []
    ensures TaggedControl([logo], None) == null
  {
  }

  /** The assertion of `init`, and the TypeError of tagging a missing control. */
  datatype ControlError = MissingIdName | NoControl

  class ControlComponent {
    const handle: MapHandle
    const longLived: bool
    const idName: Option<string>
    var control: Control?
    var position: Json
    /** `_prevControl`: the control this component put in (or found in) the map. */
    var prevControl: Control?

    constructor (handle: MapHandle, longLived: bool, idName: Option<string>, control: Control?, position: Json, prevControl: Control?)
      ensures this.handle == handle && this.longLived == longLived && this.idName == idName
      ensures this.control == control && this.position == position && this.prevControl == prevControl
    {
      this.handle, this.longLived, this.idName := handle, longLived, idName;
      this.control, this.position, this.prevControl := control, position, prevControl;
    }

    /**
      `init` and `_unhideOrAddControl`. A long-lived control needs an
      `idName`. A control the map holds under the tag is unhidden and not
      added again; otherwise the given control is tagged and added at the end
      of the map's control list. Only the found control's `hide` class and the
      given control's tag can change.
    */
    static method Init(handle: MapHandle, longLived: bool, idName: Option<string>, control: Control?, position: Json)
      returns (c: ControlComponent?, err: Option<ControlError>)
      modifies handle`controls, handle.controls`hidden, (if control == null then {} else {control})`idName
      ensures err.Some? <==> c == null
      ensures err.Some? ==> handle.controls == old(handle.controls)
      ensures longLived && !TruthyName(idName) ==> err == Some(MissingIdName)
      ensures !longLived || TruthyName(idName) ==>
        var found := old(TaggedControl(handle.controls, idName));
        && (found != null ==>
              && err.None? && c.prevControl == found && !found.hidden
              && handle.controls == old(handle.controls)
              && (control != null ==> control.idName == old(control.idName)))
        && (found == null && control == null ==> err == Some(NoControl))
        && (found == null && control != null ==>
              && err.None? && c.prevControl == control && control.idName == idName
              && handle.controls == old(handle.controls) + [control])
        && (forall x :: x in old(handle.controls) && x != found ==> x.hidden == old(x.hidden))
      ensures c != null ==>
        && fresh(c) && c.handle == handle && c.longLived == longLived && c.idName == idName
        && c.control == control && c.position == position
    {
      if longLived && !TruthyName(idName) {
        return null, Some(MissingIdName);
      }
      var found := TaggedControl(handle.controls, idName);
      if found != null {
        found.hidden := false;
        c := new ControlComponent(handle, longLived, idName, control, position, found);
      } else {
        if control == null {
          return null, Some(NoControl);
        }
        control.idName := idName;
        handle.AddControl(control, position);
        c := new ControlComponent(handle, longLived, idName, control, position, control);
      }
      err := None;
    }

    /**
      `didUpdateAttrs` and `_updateControl` with the new `control` and
      `position`: the previous control, if any, is removed; the new control,
      if any, is added and recorded, otherwise nothing is recorded. The new
      control is not tagged.
    */
    method DidUpdateAttrs(newControl: Control?, newPosition: Json)
      modifies this`control, this`position, this`prevControl, handle`controls
      ensures control == newControl && position == newPosition && prevControl == newControl
      ensures old(prevControl) == null && newControl != null ==> handle.controls == old(handle.controls) + [newControl]
      ensures old(prevControl) == null && newControl == null ==> handle.controls == old(handle.controls)
      ensures old(prevControl) != null && newControl != null ==>
        handle.controls == RemoveFirst<Control>(old(handle.controls), old(prevControl)) + [newControl]
      ensures old(prevControl) != null && newControl == null ==>
        handle.controls == RemoveFirst<Control>(old(handle.controls), old(prevControl))
    {
      control, position := newControl, newPosition;
      if prevControl != null {
        handle.RemoveControl(prevControl);
      }
      if newControl != null {
        handle.AddControl(newControl, newPosition);
        prevControl := newControl;
      } else {
        prevControl := null;
      }
    }

    /**
      `willDestroy` and `_hideOrRemoveControl`: nothing without a previous
      control; a long-lived control gets the `hide` class and stays in the
      map; any other is removed from it.
    */
    method WillDestroy()
      modifies handle`controls, (if prevControl == null then {} else {prevControl})`hidden
      ensures prevControl == null ==> handle.controls == old(handle.controls)
      ensures prevControl != null && longLived ==> prevControl.hidden && handle.controls == old(handle.controls)
      ensures prevControl != null && !longLived ==>
        handle.controls == RemoveFirst<Control>(old(handle.controls), prevControl) && prevControl.hidden == old(prevControl.hidden)
    {
      if prevControl != null {
        if longLived {
          prevControl.hidden := true;
        } else {
          handle.RemoveControl(prevControl);
        }
      }
    }
  }

  /**
    A long-lived control over a remount: mounted under `idName`, destroyed,
    then mounted again under the same `idName` with another instance. The
    second mount finds the first instance and unhides it; the map holds it
    once, behind the controls it held before, and the other instance is
    never added.
  */
  method LongLivedRemount(handle: MapHandle, idName: string, first: Control, second: Control, position: Json)
      returns (again: ControlComponent)
    requires idName != ""
    requires forall x :: x in handle.controls ==> x.idName != Some(idName)
    modifies handle`controls, handle.controls, first, second`idName
    ensures again.prevControl == first && !first.hidden && first.idName == Some(idName)
    ensures handle.controls == old(handle.controls) + [first]
  {
    ghost var before := handle.controls;
    var mounted, err := ControlComponent.Init(handle, true, Some(idName), first, position);
    assert handle.controls == before + [first] && mounted.prevControl == first;
    mounted.WillDestroy();
    assert TaggedControl(handle.controls, Some(idName)) == first by {
      forall x | x in handle.controls && x != first ensures x.idName != Some(idName) {
        assert x in before;
      }
    }
    var remounted, err2 := ControlComponent.Init(handle, true, Some(idName), second, position);
    again := remounted;
  }
}
