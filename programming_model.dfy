/** `setProgrammingModel`: installing a programming model, and remembering the first as the default. */
module ProgrammingModels {
  import opened Wrappers
  import opened Rpc
  import opened Hooks
  import opened Worker

  /** The System Information record announcing a replacement programming model. */
  function SettingModelRecord(pm: ProgrammingModel): RpcLog {
    SystemLog("Setting Node.js programming model to \"" + pm.name + "\" version \"" + pm.version + "\"", Information)
  }

  /**
   * The first model installed on an application without one becomes the default,
   * silently; installing over an existing model is logged and leaves the default alone.
   * Either way the application ends up with the new model, unless the log throws first.
   */
  method SetProgrammingModel(w: WorkerContext, pm: ProgrammingModel) returns (o: Outcome<Exception>)
    modifies w, w.app
    ensures w.app == old(w.app) && w.app.OthersUnchanged()
    ensures w.app.workerIndexingLocked == old(w.app.workerIndexingLocked)
    ensures w.rawId == old(w.rawId) && w.rawHostVersion == old(w.rawHostVersion) && w.hookCalls == old(w.hookCalls)
    ensures old(w.app.programmingModel).None? ==>
      && o == Pass
      && w.defaultProgrammingModel == Some(pm) && w.app.programmingModel == Some(pm)
      && w.rawEventStream == old(w.rawEventStream)
    ensures old(w.app.programmingModel).Some? && old(w.rawEventStream).Some? ==>
      && o == Pass
      && w.defaultProgrammingModel == old(w.defaultProgrammingModel) && w.app.programmingModel == Some(pm)
      && w.rawEventStream == Some(old(w.rawEventStream.value).(written := old(w.Written()) + [SettingModelRecord(pm)]))
    ensures old(w.app.programmingModel).Some? && old(w.rawEventStream).None? ==>
      && o == Fail(NotInitializedError())
      && w.defaultProgrammingModel == old(w.defaultProgrammingModel)
      && w.app.programmingModel == old(w.app.programmingModel)
      && w.rawEventStream.None?
  {
    if w.app.programmingModel.Some? {
      var record := SettingModelRecord(pm);
      SystemRecordUnchanged(record, w.app.logHooks);
      o := w.Log(record, None);
      if o.Fail? {
        return;
      }
    } else {
      w.defaultProgrammingModel := Some(pm);
      o := Pass;
    }
    w.app.programmingModel := Some(pm);
  }

  /**
   * After a reset seeded with a default D, installing a model logs the replacement and
   * keeps D as the default; without a default, the model installed becomes it.
   */
  method ResetThenSetProgrammingModel(w: WorkerContext, pm: ProgrammingModel) returns (o: Outcome<Exception>)
    modifies w
    ensures fresh(w.app) && w.app.Cleared()
    ensures old(w.defaultProgrammingModel).Some? && old(w.rawEventStream).Some? ==>
      && o == Pass
      && w.defaultProgrammingModel == old(w.defaultProgrammingModel) && w.app.programmingModel == Some(pm)
      && w.Written() == old(w.Written()) + [SettingModelRecord(pm)]
    ensures old(w.defaultProgrammingModel).None? ==>
      && o == Pass
      && w.defaultProgrammingModel == Some(pm) && w.app.programmingModel == Some(pm)
      && w.Written() == old(w.Written())
  {
    w.ResetApp();
    o := SetProgrammingModel(w, pm);
  }
}
