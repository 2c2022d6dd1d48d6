/**
 * The state of the optical-flow effect node (rae_av/fx/OpticalFlow.hpp). The OpenCV processing
 * behind `pushFrame` and `update` lives in OpticalFlow.cpp, which is not part of this model: the
 * state those two calls leave behind is given to them as a parameter.
 */
module Fx {

  datatype OpticalFlowMethod = DeepFlow | DualTVL1 | Farneback | CudaBrox

  datatype EffectNodeState = Nothing | WaitingForData | Processing | Done

  /** The constructor's default argument. */
  const DefaultMethod: OpticalFlowMethod := DeepFlow

  class OpticalFlow {
    var flowMethod: OpticalFlowMethod
    var frameCount: int
    var duration: real
    var state: EffectNodeState
    var error: bool

    /** `OpticalFlow(method = DeepFlow)` with the member initialisers of the header. */
    constructor (m: OpticalFlowMethod)
      ensures flowMethod == m
      ensures state == Nothing && !error && frameCount == 0 && duration == 2.0
    {
      flowMethod := m;
      frameCount := 0;
      duration := 2.0;
      state := Nothing;
      error := false;
    }

    function GetState(): EffectNodeState
      reads this
    {
      state
    }

    method SetMethod(m: OpticalFlowMethod)
      modifies this
      ensures flowMethod == m
      ensures state == old(state) && frameCount == old(frameCount)
      ensures duration == old(duration) && error == old(error)
    {
      flowMethod := m;
    }

    /** `setState` (private): the state becomes `s`; the logging line is left out. */
    method SetState(s: EffectNodeState)
      modifies this
      ensures GetState() == s
      ensures flowMethod == old(flowMethod) && frameCount == old(frameCount)
      ensures duration == old(duration) && error == old(error)
    {
      state := s;
    }

    method Reset()
      modifies this
      ensures GetState() == Nothing
      ensures flowMethod == old(flowMethod) && frameCount == old(frameCount)
      ensures duration == old(duration) && error == old(error)
    {
      SetState(Nothing);
    }

    method WaitForData()
      modifies this
      ensures GetState() == WaitingForData
      ensures flowMethod == old(flowMethod) && frameCount == old(frameCount)
      ensures duration == old(duration) && error == old(error)
    {
      SetState(WaitingForData);
    }

    /** `pushFrame(frame)`: the frame is handed to the node, whose next state is `next`. */
    method PushFrame(next: EffectNodeState)
      modifies this
      ensures GetState() == next
      ensures flowMethod == old(flowMethod)
    {
      state := next;
    }

    /** `update(time, deltaTime)`: one processing step, after which the node's state is `next`. */
    method Update(next: EffectNodeState)
      modifies this
      ensures GetState() == next
      ensures flowMethod == old(flowMethod)
    {
      state := next;
    }
  }
}
