/**
 * The video player application (pihlaja/Pihlaja.cpp): key-driven play and rendering-mode
 * toggles, the frame-update gate of its per-tick `update`, and the dispatch of that update on
 * the state of its optical-flow node.
 *
 * The media asset, the AV system and the UI system are outside the model. What the player asks
 * of them (has the asset, is it loaded) are fields; what it does to them (seek, pull a frame,
 * copy it to the screen, set a button's active state) is recorded in `effects` or mirrored in a
 * field.
 */
module Pihlaja {
  import opened Input
  import opened Fx

  datatype VideoRenderingState = Player | RenderToScreen | RenderToDisk

  /** A call into the AV system, the optical-flow node or the engine. */
  datatype AvEffect =
    | SeekToStart
    | PullFrame
    | CopyFrameToScreen
    | PushFrameToFlow
    | FlowUpdate
    | WriteFrameToImage
    | WriteFrameToDiskAndImage
    | AskForFrameUpdate

  /** The flow states in which `update` pulls a new frame from the asset. */
  predicate Pulling(s: EffectNodeState) {
    s == Nothing || s == WaitingForData
  }

  predicate Rendering(v: VideoRenderingState) {
    v == RenderToScreen || v == RenderToDisk
  }

  class Pihlaja {
    var play: bool
    var needsFrameUpdate: bool
    var evenFrames: bool
    var renderingState: VideoRenderingState
    var frameCount: int
    /** The active state of the Play button and of the NeedsFrameUpdate text box. */
    var playButtonActive: bool
    var needsFrameUpdateBoxActive: bool
    /** What the AV system answers about the video asset. */
    var hasAsset: bool
    var assetLoaded: bool
    var effects: seq<AvEffect>
    const flow: OpticalFlow

    /**
     * Pihlaja.hpp, where the fields get their initial values, is not part of this model, so they
     * are parameters. The constructor's `initUI` mirrors `play` and `needsFrameUpdate` onto the UI.
     */
    constructor (play0: bool, needs0: bool, even0: bool, mode0: VideoRenderingState, frames0: int,
                 hasAsset0: bool, loaded0: bool)
      ensures play == play0 && needsFrameUpdate == needs0 && evenFrames == even0
      ensures renderingState == mode0 && frameCount == frames0
      ensures playButtonActive == play0 && needsFrameUpdateBoxActive == needs0
      ensures hasAsset == hasAsset0 && assetLoaded == loaded0 && effects == []
      ensures fresh(flow) && flow.GetState() == Nothing && flow.flowMethod == DefaultMethod
    {
      play, needsFrameUpdate, evenFrames := play0, needs0, even0;
      renderingState, frameCount := mode0, frames0;
      playButtonActive, needsFrameUpdateBoxActive := play0, needs0;
      hasAsset, assetLoaded := hasAsset0, loaded0;
      effects := [];
      flow := new OpticalFlow(DefaultMethod);
    }

    /** `togglePlay()`: negate `play` and show the new value on the Play button. */
    method TogglePlay()
      modifies this
      ensures play == !old(play) && playButtonActive == play
      ensures needsFrameUpdate == old(needsFrameUpdate) && needsFrameUpdateBoxActive == old(needsFrameUpdateBoxActive)
      ensures evenFrames == old(evenFrames) && renderingState == old(renderingState)
      ensures frameCount == old(frameCount) && effects == old(effects)
      ensures hasAsset == old(hasAsset) && assetLoaded == old(assetLoaded)
    {
      play := !play;
      playButtonActive := play;
    }

    /** `setNeedsFrameUpdate(value)`: set the flag, show it, and ask the engine for a frame. */
    method SetNeedsFrameUpdate(value: bool)
      modifies this
      ensures needsFrameUpdate == value && needsFrameUpdateBoxActive == value
      ensures effects == old(effects) + [AskForFrameUpdate]
      ensures play == old(play) && playButtonActive == old(playButtonActive)
      ensures evenFrames == old(evenFrames) && renderingState == old(renderingState)
      ensures frameCount == old(frameCount)
      ensures hasAsset == old(hasAsset) && assetLoaded == old(assetLoaded)
    {
      needsFrameUpdate := value;
      needsFrameUpdateBoxActive := value;
      effects := effects + [AskForFrameUpdate];
    }

    /** `rewind()`: with a loaded asset, seek to its start, ask for a frame and restart the count. */
    method Rewind()
      modifies this
      ensures !(old(hasAsset) && old(assetLoaded)) ==> unchanged(this)
      ensures old(hasAsset) && old(assetLoaded) ==>
        && effects == old(effects) + [SeekToStart, AskForFrameUpdate]
        && needsFrameUpdate && needsFrameUpdateBoxActive
        && frameCount == 0
        && play == old(play) && playButtonActive == old(playButtonActive)
        && evenFrames == old(evenFrames) && renderingState == old(renderingState)
        && hasAsset == old(hasAsset) && assetLoaded == old(assetLoaded)
    {
      if !hasAsset {
        return;
      }
      if !assetLoaded {
        return;
      }
      effects := effects + [SeekToStart];
      SetNeedsFrameUpdate(true);
      frameCount := 0;
    }

    /** `onKeyEvent`: the player's hot keys, on key press only. */
    method OnKeyEvent(eventType: EventType, key: KeySym)
      modifies this
      ensures eventType != KeyPress ==> unchanged(this)
      // Space: `togglePlay()`.
      ensures eventType == KeyPress && key == Space ==>
        && play == !old(play) && playButtonActive == play
        && needsFrameUpdate == old(needsFrameUpdate) && needsFrameUpdateBoxActive == old(needsFrameUpdateBoxActive)
        && evenFrames == old(evenFrames) && renderingState == old(renderingState)
        && frameCount == old(frameCount) && effects == old(effects)
      // Home: `rewind()`.
      ensures eventType == KeyPress && key == Home && !(old(hasAsset) && old(assetLoaded)) ==> unchanged(this)
      ensures eventType == KeyPress && key == Home && old(hasAsset) && old(assetLoaded) ==>
        && effects == old(effects) + [SeekToStart, AskForFrameUpdate]
        && needsFrameUpdate && needsFrameUpdateBoxActive
        && frameCount == 0
        && play == old(play) && playButtonActive == old(playButtonActive)
        && evenFrames == old(evenFrames) && renderingState == old(renderingState)
      // 1 and 2: even frames on or off.
      ensures eventType == KeyPress && (key == Num1 || key == Num2) ==>
        && evenFrames == (key == Num1)
        && play == old(play) && playButtonActive == old(playButtonActive)
        && needsFrameUpdate == old(needsFrameUpdate) && needsFrameUpdateBoxActive == old(needsFrameUpdateBoxActive)
        && renderingState == old(renderingState) && frameCount == old(frameCount) && effects == old(effects)
      // R and E: switch between the player and a render mode, then `setNeedsFrameUpdate(true)`.
      ensures eventType == KeyPress && (key == R || key == E) ==>
        && renderingState == (if old(renderingState) != Player then Player else if key == R then RenderToScreen else RenderToDisk)
        && needsFrameUpdate && needsFrameUpdateBoxActive
        && effects == old(effects) + [AskForFrameUpdate]
        && evenFrames == old(evenFrames) && play == old(play) && playButtonActive == old(playButtonActive)
        && frameCount == old(frameCount)
      ensures eventType == KeyPress && key !in {Space, Home, Num1, Num2, R, E} ==> unchanged(this)
      ensures hasAsset == old(hasAsset) && assetLoaded == old(assetLoaded)
    {
      if eventType == KeyPress {
        match key
        case Space => TogglePlay();
        case Home => Rewind();
        case Num1 => evenFrames := true;
        case Num2 => evenFrames := false;
        case R =>
          if renderingState == Player {
            renderingState := RenderToScreen;
          } else {
            renderingState := Player;
          }
          SetNeedsFrameUpdate(true);
        case E =>
          if renderingState == Player {
            renderingState := RenderToDisk;
          } else {
            renderingState := Player;
          }
          SetNeedsFrameUpdate(true);
        case _ =>
      }
    }

    /**
     * `update`: nothing to do unless playing or a frame update is pending. Otherwise dispatch on
     * the flow node's state: pull the next frame (and show it, or feed it to the flow node), step
     * the flow node, or step it and write its output. `flowAfter` is the state the flow node is in
     * after the `pushFrame` or `update` call this tick makes, if it makes one.
     */
    method Update(flowAfter: EffectNodeState) returns (changed: bool)
      modifies this, flow
      // The gate.
      ensures !old(play) && !old(needsFrameUpdate) ==> !changed && unchanged(this, flow)
      // No frame to pull: nothing changes.
      ensures (old(play) || old(needsFrameUpdate)) && Pulling(old(flow.state)) && !(old(hasAsset) && old(assetLoaded))
        ==> !changed && unchanged(this, flow)
      // A frame is pulled and counted; the player shows it, the render modes feed it to the flow node.
      ensures (old(play) || old(needsFrameUpdate)) && Pulling(old(flow.state)) && old(hasAsset) && old(assetLoaded) ==>
        && frameCount == old(frameCount) + 1
        && (old(renderingState) == Player ==>
              && effects == old(effects) + [PullFrame, CopyFrameToScreen, AskForFrameUpdate]
              && !needsFrameUpdate && !needsFrameUpdateBoxActive
              && flow.state == old(flow.state))
        && (Rendering(old(renderingState)) ==>
              && effects == old(effects) + [PullFrame, PushFrameToFlow]
              && needsFrameUpdate == old(needsFrameUpdate) && needsFrameUpdateBoxActive == old(needsFrameUpdateBoxActive)
              && flow.state == flowAfter)
      // Processing: only the render modes step the flow node.
      ensures (old(play) || old(needsFrameUpdate)) && old(flow.state) == Processing ==>
        && frameCount == old(frameCount) && needsFrameUpdate == old(needsFrameUpdate)
        && needsFrameUpdateBoxActive == old(needsFrameUpdateBoxActive)
        && (Rendering(old(renderingState)) ==> effects == old(effects) + [FlowUpdate] && flow.state == flowAfter)
        && (old(renderingState) == Player ==> effects == old(effects) && flow.state == old(flow.state))
      // Done: step the flow node, then write its output where the mode says.
      ensures (old(play) || old(needsFrameUpdate)) && old(flow.state) == Done ==>
        && frameCount == old(frameCount) && needsFrameUpdate == old(needsFrameUpdate)
        && needsFrameUpdateBoxActive == old(needsFrameUpdateBoxActive)
        && flow.state == flowAfter
        && effects == old(effects) + [FlowUpdate] +
             (match old(renderingState)
              case RenderToScreen => [WriteFrameToImage]
              case RenderToDisk => [WriteFrameToDiskAndImage]
              case Player => [])
      // Past the gate and the asset checks, the result is whether another frame is wanted.
      ensures (old(play) || old(needsFrameUpdate)) && (Pulling(old(flow.state)) ==> old(hasAsset) && old(assetLoaded))
        ==> changed == (needsFrameUpdate || play)
      // The mode, the play flag and the asset answers are never changed by an update.
      ensures play == old(play) && playButtonActive == old(playButtonActive)
      ensures renderingState == old(renderingState) && evenFrames == old(evenFrames)
      ensures hasAsset == old(hasAsset) && assetLoaded == old(assetLoaded)
      ensures flow.flowMethod == old(flow.flowMethod)
    {
      if !play && !needsFrameUpdate {
        return false;
      }
      var st := flow.GetState();
      if st == Nothing || st == WaitingForData {
        if !hasAsset {
          return false;
        }
        if !assetLoaded {
          return false;
        }
        effects := effects + [PullFrame];
        frameCount := frameCount + 1;
        if renderingState == Player {
          effects := effects + [CopyFrameToScreen];
          SetNeedsFrameUpdate(false);
        } else if renderingState == RenderToScreen || renderingState == RenderToDisk {
          flow.PushFrame(flowAfter);
          effects := effects + [PushFrameToFlow];
        }
      } else if st == Processing {
        if renderingState == RenderToScreen || renderingState == RenderToDisk {
          flow.Update(flowAfter);
          effects := effects + [FlowUpdate];
        }
      } else if st == Done {
        flow.Update(flowAfter);
        effects := effects + [FlowUpdate];
        if renderingState == RenderToScreen {
          effects := effects + [WriteFrameToImage];
        } else if renderingState == RenderToDisk {
          effects := effects + [WriteFrameToDiskAndImage];
        }
      }
      changed := needsFrameUpdate || play;
    }
  }
}
