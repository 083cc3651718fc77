/** The camera service (src/vision/camera_service.py): the hardware layer
    that shares the single camera between one-shot captures and a live
    preview. It remembers which of the two it last set the camera to, and
    which preview client asked last and when. The device outcomes are
    parameters, as in the camera model; times are whole seconds. */
module CameraSvc {
  import opened Common
  import opened CameraDevice

  datatype ServiceMode = CaptureMode | PreviewMode

  /** The `{"success", "message"}` dictionary the preview operations return. */
  datatype Reply = Reply(success: bool, message: string)

  /** What a call to `stop_preview` does: it returns a reply, or it waits
      forever for a lock its own thread already holds. */
  datatype StopOutcome = Done(reply: Reply) | Hangs

  class CameraService {
    const camera: CameraSingleton
    const previewTimeout: int
    var currentMode: Option<ServiceMode>
    var previewClientId: Option<string>
    var previewClientTime: Option<int>
    /** Whether the service's own (non-reentrant) lock is held. */
    var locked: bool

    constructor (camera: CameraSingleton, previewTimeout: int)
      ensures this.camera == camera && this.previewTimeout == previewTimeout
      ensures currentMode.None? && previewClientId.None? && previewClientTime.None? && !locked
    {
      this.camera := camera;
      this.previewTimeout := previewTimeout;
      currentMode, previewClientId, previewClientTime := None, None, None;
      locked := false;
    }

    /** `capture`: put the camera in capture mode unless the service already
        did, then take one picture; a failed switch leaves the mode alone. */
    method Capture(open: OpenOutcome, read: nat -> ReadOutcome, now: DateTime) returns (path: Option<string>)
      requires camera.Valid() && !locked
      modifies this`currentMode, camera`cap, camera`mode, camera`readCount, camera`written
      ensures camera.Valid() && !locked
      ensures old(currentMode) == Some(CaptureMode) ==> camera.cap == old(camera.cap) && camera.mode == old(camera.mode)
      ensures (old(currentMode) != Some(CaptureMode) && !old(camera.WouldSwitch(CameraMode.Capture, open))) ==>
        path.None? && currentMode == old(currentMode) && camera.readCount == old(camera.readCount) && camera.written == old(camera.written)
      ensures (old(currentMode) == Some(CaptureMode) || old(camera.WouldSwitch(CameraMode.Capture, open))) ==>
        currentMode == Some(CaptureMode)
      ensures path.Some? ==>
        read(old(camera.readCount) + 2).Got? &&
        camera.written == old(camera.written) + [(OutputFile(camera.projectRoot, None, now), read(old(camera.readCount) + 2).frame)] &&
        path == RelativeTo(OutputFile(camera.projectRoot, None, now), camera.projectRoot)
      // an open camera (already, or after a good switch) whose reads succeed yields the picture
      ensures (if old(currentMode) == Some(CaptureMode) then old(camera.IsOpen()) else old(camera.WouldSwitch(CameraMode.Capture, open))) &&
              read(old(camera.readCount)) != ReadRaised && read(old(camera.readCount) + 1) != ReadRaised &&
              read(old(camera.readCount) + 2).Got? ==>
        path == RelativeTo(OutputFile(camera.projectRoot, None, now), camera.projectRoot)
    {
      if currentMode != Some(CaptureMode) {
        var ok, _ := camera.SwitchToMode(CameraMode.Capture, open);
        if !ok {
          return None;
        }
        currentMode := Some(CaptureMode);
      }
      path := camera.CaptureImage(None, read, now);
    }

    /** `start_preview`: record the client and the time first, then put the
        camera in stream mode unless the service already did. */
    method StartPreview(clientId: string, now: int, open: OpenOutcome) returns (r: Reply)
      requires camera.Valid() && !locked
      modifies this`currentMode, this`previewClientId, this`previewClientTime, camera`cap, camera`mode
      ensures camera.Valid() && !locked
      ensures previewClientId == Some(clientId) && previewClientTime == Some(now)
      ensures old(currentMode) == Some(PreviewMode) ==> camera.cap == old(camera.cap) && camera.mode == old(camera.mode)
      ensures (old(currentMode) != Some(PreviewMode) && !old(camera.WouldSwitch(CameraMode.Stream, open))) ==>
        r == Reply(false, "摄像头切换失败") && currentMode == old(currentMode)
      ensures (old(currentMode) == Some(PreviewMode) || old(camera.WouldSwitch(CameraMode.Stream, open))) ==>
        r == Reply(true, "预览模式已启动") && currentMode == Some(PreviewMode)
    {
      previewClientId := Some(clientId);
      previewClientTime := Some(now);
      if currentMode != Some(PreviewMode) {
        var ok, _ := camera.SwitchToMode(CameraMode.Stream, open);
        if !ok {
          return Reply(false, "摄像头切换失败");
        }
        currentMode := Some(PreviewMode);
      }
      return Reply(true, "预览模式已启动");
    }

    /** The body of `stop_preview` once the lock is held: refuse another
        client, switch back to capture when previewing, then forget the
        client. A failed switch keeps the client. */
    method StopPreviewHeld(clientId: Option<string>, open: OpenOutcome) returns (r: Reply)
      requires camera.Valid()
      modifies this`currentMode, this`previewClientId, this`previewClientTime, camera`cap, camera`mode
      ensures camera.Valid()
      ensures (clientId.Some? && old(previewClientId) != clientId) ==>
        r == Reply(false, "不是当前预览客户端") && currentMode == old(currentMode) &&
        previewClientId == old(previewClientId) && previewClientTime == old(previewClientTime) &&
        camera.cap == old(camera.cap) && camera.mode == old(camera.mode)
      ensures (!(clientId.Some? && old(previewClientId) != clientId) &&
               old(currentMode) == Some(PreviewMode) && !old(camera.WouldSwitch(CameraMode.Capture, open))) ==>
        r == Reply(false, "摄像头切换失败") && currentMode == old(currentMode) &&
        previewClientId == old(previewClientId) && previewClientTime == old(previewClientTime)
      ensures (!(clientId.Some? && old(previewClientId) != clientId) &&
               (old(currentMode) != Some(PreviewMode) || old(camera.WouldSwitch(CameraMode.Capture, open)))) ==>
        r == Reply(true, "预览模式已停止") && previewClientId.None? && previewClientTime.None? &&
        currentMode == (if old(currentMode) == Some(PreviewMode) then Some(CaptureMode) else old(currentMode))
      ensures old(currentMode) != Some(PreviewMode) ==> camera.cap == old(camera.cap) && camera.mode == old(camera.mode)
    {
      if clientId.Some? && previewClientId != clientId {
        return Reply(false, "不是当前预览客户端");
      }
      if currentMode == Some(PreviewMode) {
        var ok, _ := camera.SwitchToMode(CameraMode.Capture, open);
        if !ok {
          return Reply(false, "摄像头切换失败");
        }
        currentMode := Some(CaptureMode);
      }
      previewClientId := None;
      previewClientTime := None;
      return Reply(true, "预览模式已停止");
    }

    /** `stop_preview`: take the lock and run the body; with the lock already
        held by the caller the call never returns. */
    method StopPreview(clientId: Option<string>, open: OpenOutcome) returns (o: StopOutcome)
      requires camera.Valid()
      modifies this`locked, this`currentMode, this`previewClientId, this`previewClientTime, camera`cap, camera`mode
      ensures camera.Valid() && locked == old(locked)
      ensures o.Hangs? <==> old(locked)
      ensures o.Hangs? ==>
        currentMode == old(currentMode) && previewClientId == old(previewClientId) &&
        previewClientTime == old(previewClientTime) && camera.cap == old(camera.cap) && camera.mode == old(camera.mode)
      ensures (o.Done? && o.reply.success) <==>
        (!old(locked) && !(clientId.Some? && old(previewClientId) != clientId) &&
         (old(currentMode) != Some(PreviewMode) || old(camera.WouldSwitch(CameraMode.Capture, open))))
      ensures o.Done? && o.reply.success ==>
        previewClientId.None? && previewClientTime.None? &&
        currentMode == (if old(currentMode) == Some(PreviewMode) then Some(CaptureMode) else old(currentMode))
      ensures o.Done? && !o.reply.success ==>
        currentMode == old(currentMode) && previewClientId == old(previewClientId) && previewClientTime == old(previewClientTime)
    {
      if locked {
        return Hangs;
      }
      locked := true;
      var r := StopPreviewHeld(clientId, open);
      locked := false;
      return Done(r);
    }

    /** `is_preview_expired`: no recorded client counts as expired. */
    predicate IsPreviewExpired(now: int)
      reads this
    {
      previewClientTime.None? || now - previewClientTime.value > previewTimeout
    }

    /** `read_preview_frame`: nothing outside preview; an expired preview is
        stopped instead of read; otherwise one frame from the camera. */
    method ReadPreviewFrame(now: int, open: OpenOutcome, read: nat -> ReadOutcome) returns (r: Option<(bool, Option<int>)>)
      requires camera.Valid() && !locked
      modifies this`locked, this`currentMode, this`previewClientId, this`previewClientTime
      modifies camera`cap, camera`mode, camera`readCount, camera`lastFrame, camera`lastFrameTime
      ensures camera.Valid() && !locked
      ensures old(currentMode) != Some(PreviewMode) ==>
        r.None? && currentMode == old(currentMode) && previewClientId == old(previewClientId) &&
        previewClientTime == old(previewClientTime) && camera.readCount == old(camera.readCount)
      ensures (old(currentMode) == Some(PreviewMode) && old(IsPreviewExpired(now))) ==>
        r.None? && camera.readCount == old(camera.readCount) &&
        (if old(camera.WouldSwitch(CameraMode.Capture, open))
         then currentMode == Some(CaptureMode) && previewClientId.None? && previewClientTime.None?
         else currentMode == old(currentMode) && previewClientId == old(previewClientId))
      ensures (old(currentMode) == Some(PreviewMode) && !old(IsPreviewExpired(now))) ==>
        currentMode == old(currentMode) && previewClientId == old(previewClientId) &&
        camera.readCount == old(camera.readCount) + (if old(camera.IsOpen()) then 1 else 0) &&
        (r.Some? <==> old(camera.IsOpen()) && read(old(camera.readCount)) != ReadRaised) &&
        (r.Some? ==> r.value.0 == read(old(camera.readCount)).Got?)
    {
      if currentMode != Some(PreviewMode) {
        return None;
      }
      if IsPreviewExpired(now) {
        var _ := StopPreview(None, open);
        return None;
      }
      r := camera.ReadFrame(read, now);
    }

    /** `shutdown` as written: it takes the lock and, while previewing, calls
        `stop_preview`, which waits for that same lock. A lock still held by
        such a call, which never returned, blocks it from the start. */
    method ShutdownAsWritten(open: OpenOutcome) returns (hangs: bool)
      requires camera.Valid()
      modifies this`currentMode, this`previewClientId, this`previewClientTime, this`locked, camera`cap, camera`mode
      ensures camera.Valid()
      ensures hangs <==> old(locked) || old(currentMode) == Some(PreviewMode)
      ensures hangs ==>
        locked && currentMode == old(currentMode) && previewClientId == old(previewClientId) &&
        previewClientTime == old(previewClientTime) && camera.cap == old(camera.cap) && camera.mode == old(camera.mode)
      ensures !hangs ==>
        !locked && currentMode.None? && previewClientId.None? && previewClientTime.None? && camera.cap.None? && camera.mode.None?
    {
      if locked {
        return true;
      }
      locked := true;
      if currentMode == Some(PreviewMode) {
        var o := StopPreview(None, open);
        return true;
      }
      currentMode, previewClientId, previewClientTime := None, None, None;
      locked := false;
      camera.Shutdown();
      return false;
    }

    /** `shutdown` as evidently intended: under the lock, leave preview by
        running the body of `stop_preview` directly, forget everything, then
        close the camera. It always returns. */
    method Shutdown(open: OpenOutcome)
      requires camera.Valid() && !locked
      modifies this`locked, this`currentMode, this`previewClientId, this`previewClientTime, camera`cap, camera`mode
      ensures camera.Valid() && !locked
      ensures currentMode.None? && previewClientId.None? && previewClientTime.None?
      ensures camera.cap.None? && camera.mode.None?
    {
      locked := true;
      if currentMode == Some(PreviewMode) {
        var _ := StopPreviewHeld(None, open);
      }
      currentMode, previewClientId, previewClientTime := None, None, None;
      locked := false;
      camera.Shutdown();
    }
  }
}
