/** The container view that lays the content beneath a stack of modals, with
    the state it updates in place as the stack and the drag progress change. */
module ContainerView {
  import opened Transitions

  class ModalStackContainerView {
    var modalCount: nat
    var isBackgroundScalingEnabled: bool
    var contentSaturation: real
    var contentScaleEffect: real
    var contentCornerRadius: real
    var contentOffset: real
    /** Corner-radius resets scheduled and not yet fired. */
    var pendingCornerResets: nat
    /** The corner radius of the device's display. */
    const deviceCornerRadius: real

    /** The fields, read as one value. */
    function State(): (s: ContainerState)
      reads this
      ensures s.modalCount == modalCount && s.scalingEnabled == isBackgroundScalingEnabled
      ensures s.pendingResets == pendingCornerResets
    {
      ContainerState(modalCount, isBackgroundScalingEnabled,
                     Visual(contentSaturation, contentScaleEffect, contentCornerRadius, contentOffset),
                     pendingCornerResets)
    }

    constructor (deviceCornerRadius: real)
      ensures this.deviceCornerRadius == deviceCornerRadius
      ensures State() == Initial()
    {
      this.deviceCornerRadius := deviceCornerRadius;
      modalCount := 0;
      isBackgroundScalingEnabled := true;
      contentSaturation := 1.0;
      contentScaleEffect := 1.0;
      contentCornerRadius := 36.0;
      contentOffset := 0.0;
      pendingCornerResets := 0;
    }

    /** A new drag progress of the topmost modal. It moves the background
        only while scaling is enabled and exactly one modal is shown. */
    method DragProgressDidChange(p: real)
      modifies this
      ensures State() == OnDragProgress(old(State()), p, deviceCornerRadius)
      ensures modalCount == old(modalCount)
      ensures isBackgroundScalingEnabled == old(isBackgroundScalingEnabled)
    {
      if !(isBackgroundScalingEnabled && modalCount == 1) {
        return;
      }
      contentSaturation := p;
      contentScaleEffect := 0.92 + 0.08 * p;
      contentCornerRadius := 36.0 + (deviceCornerRadius - 36.0) * p;
      contentOffset := 30.0 - 30.0 * p;
    }

    /** A new modal list, given by each modal's own scaling flag. */
    method ModalsDidChange(allows: seq<bool>)
      modifies this
      ensures State() == OnModalsChanged(old(State()), allows, deviceCornerRadius)
      ensures modalCount == |allows|
      ensures allows == [] ==> isBackgroundScalingEnabled
      ensures allows != [] ==>
        (isBackgroundScalingEnabled <==>
           old(isBackgroundScalingEnabled) && forall j :: 0 <= j < |allows| ==> allows[j])
    {
      if allows == [] {
        isBackgroundScalingEnabled := true;
      } else {
        for i := 0 to |allows|
          invariant isBackgroundScalingEnabled ==
            (old(isBackgroundScalingEnabled) && forall j :: 0 <= j < i ==> allows[j])
          modifies this`isBackgroundScalingEnabled
        {
          if !allows[i] {
            isBackgroundScalingEnabled := false;
          }
        }
      }
      assert isBackgroundScalingEnabled == ScalingAfter(old(isBackgroundScalingEnabled), allows);

      if modalCount == 0 && |allows| == 1 {
        contentCornerRadius := deviceCornerRadius;
      }

      modalCount := |allows|;

      if !isBackgroundScalingEnabled || |allows| == 2 {
        return;
      }

      contentSaturation := if modalCount == 0 then 1.0 else 0.0;
      contentScaleEffect := if modalCount == 0 then 1.0 else 0.92;
      contentCornerRadius := if modalCount == 0 then deviceCornerRadius else 36.0;
      contentOffset := if modalCount == 0 then 0.0 else 30.0;

      if modalCount == 0 {
        pendingCornerResets := pendingCornerResets + 1;
      }
    }

    /** One scheduled corner-radius reset fires: it clears the rounded corners
        only if the stack is still empty when it runs. */
    method DelayedFire()
      requires pendingCornerResets > 0
      modifies this
      ensures State() == OnDelayedFire(old(State()))
      ensures contentCornerRadius == (if modalCount == 0 then 0.0 else old(contentCornerRadius))
    {
      pendingCornerResets := pendingCornerResets - 1;
      if modalCount != 0 {
        return;
      }
      contentCornerRadius := 0.0;
    }
  }
}
