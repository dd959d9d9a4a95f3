/** The feature/inference engine as the task sees it: enqueue one sample,
    dequeue one score vector when a frame is complete. Its internals are
    not modelled; it is a deterministic pipeline, so each reply is a
    function of the samples it has been fed so far. */
module InferenceEngine {

  /** The three results of a dequeue: a completed frame's scores, no new
      frame yet, or an internal error. */
  datatype DequeueReply = Frame(scores: seq<real>) | NoData | Error

  datatype DequeueStatus = DequeueSuccess | DequeueNoData | DequeueError

  class Engine {
    /** Number of classes, the length of every score vector. */
    const classCount: nat
    /** Whether the enqueue of the latest sample succeeds, given all samples so far. */
    const enqueueReply: seq<real> -> bool
    /** The reply to a dequeue, given all samples enqueued so far. */
    const dequeueReply: seq<real> -> DequeueReply
    /** Every sample enqueued so far. */
    var fed: seq<real>

    ghost predicate Valid()
      reads this
    {
      forall h :: dequeueReply(h).Frame? ==> |dequeueReply(h).scores| == classCount
    }

    constructor (classCount: nat, enqueueReply: seq<real> -> bool, dequeueReply: seq<real> -> DequeueReply)
      requires forall h :: dequeueReply(h).Frame? ==> |dequeueReply(h).scores| == classCount
      ensures Valid() && fed == []
      ensures this.classCount == classCount && this.enqueueReply == enqueueReply && this.dequeueReply == dequeueReply
    {
      this.classCount := classCount;
      this.enqueueReply := enqueueReply;
      this.dequeueReply := dequeueReply;
      fed := [];
    }

    /** Hand one sample to the engine; false is an internal fault. */
    method Enqueue(x: real) returns (ok: bool)
      modifies this
      ensures fed == old(fed) + [x]
      ensures ok == enqueueReply(fed)
    {
      fed := fed + [x];
      ok := enqueueReply(fed);
    }

    /** Poll for a completed frame; on success its scores are written to out. */
    method Dequeue(out: array<real>) returns (status: DequeueStatus)
      requires Valid() && out.Length == classCount
      modifies out
      ensures status == match dequeueReply(fed)
                        case Frame(_) => DequeueSuccess
                        case NoData => DequeueNoData
                        case Error => DequeueError
      ensures dequeueReply(fed).Frame? ==> out[..] == dequeueReply(fed).scores
      ensures !dequeueReply(fed).Frame? ==> out[..] == old(out[..])
    {
      match dequeueReply(fed)
      case Frame(s) =>
        forall k | 0 <= k < out.Length {
          out[k] := s[k];
        }
        status := DequeueSuccess;
      case NoData =>
        status := DequeueNoData;
      case Error =>
        status := DequeueError;
    }
  }
}
