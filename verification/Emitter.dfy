/** The emitter as an object: it seals windows into chained records. */
module Emitter {
  import opened Prelude
  import opened Gate
  import opened Store
  import opened Database
  import Windows
  import Aggregation
  import opened Folder

  /** The record of an aggregate: who it is under, and what its window held. */
  function AggregateDraft(a: Windows.Aggregate, now: string): Draft {
    Draft(a.key.subjectKey, "",
          Gate.Envelope(map["mandate-ref" := Text(a.key.mandateRef), "policy-version" := Text(a.key.policyVersion),
                            "classification" := Text("read")], Text(now), None),
          Some(Summary(a.from, a.to, a.total, a.byAction, a.samples)))
  }

  class Emitter {
    const store: GatewayStore
    const folder: ReadFolder

    constructor (store: GatewayStore, folder: ReadFolder)
      ensures this.store == store && this.folder == folder
    {
      this.store, this.folder := store, folder;
    }

    /** Seal one window taken out before and chain its record, which carries the window's own counts. A refusal by
        the structural check, or a failing write, loses the record; a window without its key would be dropped too,
        but none ever lacks it. */
    method EmitWindow(i: nat, now: string, ok: bool) returns (stored: bool)
      requires folder.Valid() && store.Valid() && i < |folder.closing|
      modifies folder, store
      ensures folder.Valid() && store.Valid() && folder.ledger == Aggregation.Emit(old(folder.ledger), i, stored)
      ensures old(folder.ledger).waiting[i].key.subjectKey in folder.keys
      ensures var body := Windows.Seal(old(folder.ledger).waiting[i], folder.maxSamples);
        var db := if ok then AppendNext(store.kit, old(store.Tables()), body.key.stream, AggregateDraft(body, now), now, Plain) else None;
        stored == db.Some? && store.Tables() == if stored then db.value else old(store.Tables())
      ensures stored ==>
        var body, summary := old(folder.ledger).waiting[i], store.envelopes[|store.envelopes| - 1].record.draft.summary;
        summary.Some? && summary.value.total == |body.folds| && summary.value.byAction == Windows.Counts(body.folds)
        && summary.value.from == body.from && (body.folds != [] ==> summary.value.to == body.folds[|body.folds| - 1].at)
      ensures stored ==>
        var key, record := old(folder.ledger).waiting[i].key, store.envelopes[|store.envelopes| - 1].record;
        && record.stream == key.stream && record.draft.key == key.subjectKey
        && record.draft.content.performed == map["mandate-ref" := Text(key.mandateRef), "policy-version" := Text(key.policyVersion),
                                                 "classification" := Text("read")]
        && record.draft.content.emittedAt == Text(now) && record.draft.content.authorization.None?
    {
      var body := folder.closing[i];
      assert body == Windows.Seal(folder.ledger.waiting[i], folder.maxSamples);
      stored := false;
      if body.key.subjectKey in folder.keys && ok {
        stored := store.AppendNext(body.key.stream, AggregateDraft(body, now), now, Plain);
      }
      folder.Retire(i, stored);
    }
  }
}
