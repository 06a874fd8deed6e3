/** Layer: the visibility flag, the display model and the redraw sink that every
    overlay shares. The overlays below hold a Layer instead of extending it. */
module Layers {
  import opened Graphics

  /** The component that repaints the map when a layer asks for it. */
  datatype Redrawer = Redrawer(id: nat)

  datatype DisplayModel = DisplayModel(tileSize: int)

  /** How a call ended: normally, or with an IllegalStateException. */
  datatype Outcome = Completed | IllegalState(message: string)

  class Layer {
    var displayModel: Option<DisplayModel>
    var assignedRedrawer: Option<Redrawer>
    var visible: bool
    /** Every `redrawLayers` notification this layer has sent, oldest first. */
    var redrawRequests: seq<Redrawer>

    /** A new layer is visible, unassigned and has no display model yet. */
    constructor ()
      ensures displayModel == None && assignedRedrawer == None && visible
      ensures redrawRequests == []
    {
      displayModel := None;
      assignedRedrawer := None;
      visible := true;
      redrawRequests := [];
    }

    /** The notifications one `requestRedraw` sends: one to the assigned redrawer,
        none while unassigned. */
    function RedrawNotice(): (n: seq<Redrawer>)
      reads this
      ensures |n| <= 1
      ensures |n| == 1 <==> assignedRedrawer.Some?
      ensures assignedRedrawer.Some? ==> n[0] == assignedRedrawer.value
    {
      if assignedRedrawer.Some? then [assignedRedrawer.value] else []
    }

    method RequestRedraw()
      modifies this`redrawRequests
      ensures redrawRequests == old(redrawRequests) + RedrawNotice()
    {
      if assignedRedrawer.Some? {
        redrawRequests := redrawRequests + [assignedRedrawer.value];
      }
    }

    method GetDisplayModel() returns (d: Option<DisplayModel>)
      ensures d == displayModel
    {
      d := displayModel;
    }

    method SetDisplayModel(d: Option<DisplayModel>)
      modifies this`displayModel
      ensures displayModel == d
    {
      displayModel := d;
    }

    /** `setVisible(visible)`: sets the flag, then always asks for a redraw. */
    method SetVisible(visible: bool)
      modifies this`visible, this`redrawRequests
      ensures this.visible == visible
      ensures redrawRequests == old(redrawRequests) + RedrawNotice()
    {
      SetVisibleRedraw(visible, true);
    }

    /** `setVisible(visible, redraw)`: sets the flag, and asks for a redraw iff `redraw`. */
    method SetVisibleRedraw(visible: bool, redraw: bool)
      modifies this`visible, this`redrawRequests
      ensures this.visible == visible
      ensures redrawRequests == old(redrawRequests) + (if redraw then RedrawNotice() else [])
    {
      this.visible := visible;
      if redraw {
        RequestRedraw();
      }
    }

    /** Attaches the layer to `redrawer`; fails on a layer that is already attached. */
    method Assign(redrawer: Redrawer) returns (o: Outcome)
      modifies this`assignedRedrawer
      ensures old(assignedRedrawer).Some? ==>
                o == IllegalState("layer already assigned") && assignedRedrawer == old(assignedRedrawer)
      ensures old(assignedRedrawer).None? ==> o == Completed && assignedRedrawer == Some(redrawer)
    {
      if assignedRedrawer.Some? {
        return IllegalState("layer already assigned");
      }
      assignedRedrawer := Some(redrawer);
      o := Completed;
    }

    /** Detaches the layer; fails on a layer that is not attached. */
    method Unassign() returns (o: Outcome)
      modifies this`assignedRedrawer
      ensures old(assignedRedrawer).None? ==> o == IllegalState("layer is not assigned")
      ensures old(assignedRedrawer).Some? ==> o == Completed
      ensures assignedRedrawer == None
    {
      if assignedRedrawer.None? {
        return IllegalState("layer is not assigned");
      }
      assignedRedrawer := None;
      o := Completed;
    }
  }

  /** Attaching and then detaching a fresh layer leaves it unassigned again, and a
      second attach in between is refused without replacing the first redrawer. */
  method AssignLifecycle(first: Redrawer, second: Redrawer)
  {
    var layer := new Layer();
    var o1 := layer.Assign(first);
    assert o1 == Completed && layer.assignedRedrawer == Some(first);
    var o2 := layer.Assign(second);
    assert o2.IllegalState? && layer.assignedRedrawer == Some(first);
    var o3 := layer.Unassign();
    assert o3 == Completed && layer.assignedRedrawer == None;
    var o4 := layer.Unassign();
    assert o4.IllegalState?;
    layer.RequestRedraw();
    assert layer.redrawRequests == [];
  }
}
