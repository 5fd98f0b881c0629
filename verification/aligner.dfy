/** The aligner plugin: configuration check, construction and the batch call `map_reads`. */
module Aligner {
  import opened LinkerPositions
  import opened BarcodeGate

  /** The configuration key that gives the worker-pool size. */
  const ThreadsKey := "n_threads"

  /** The message of the error raised when ThreadsKey is missing. */
  const MissingThreadsMessage := "Need the number of threads for alignment."

  /** The message of the error the worker pool raises for a size below one. */
  const BadPoolSizeMessage := "max_workers must be greater than 0"

  /** Either nothing was raised, or a runtime error with its message. */
  datatype Validation = Pass | Raised(message: string)

  /** The two errors construction can raise. */
  datatype ConstructionError = RuntimeError(message: string) | ValueError(message: string)

  /** Constructing an aligner either yields a ready aligner or raises an error. */
  datatype Construction = Ready(aligner: BarcodeAligner) | Failed(error: ConstructionError)

  class BarcodeAligner {
    /** The keyword arguments the aligner was configured with. */
    var alignerParams: map<string, int>
    /** The number of workers of the pool reads are dispatched to; 0 until Create sizes the pool. */
    var maxWorkers: int

    /** A fully constructed aligner: its configuration names a pool size, and the pool has that
        many workers, at least one. */
    ghost predicate Valid()
      reads this
    {
      ThreadsKey in alignerParams && maxWorkers == alignerParams[ThreadsKey] && maxWorkers > 0
    }

    /** Records the configuration only. The aligner is not yet Valid: the pool is sized once
        validation has passed, and only Create yields usable aligners. */
    constructor (params: map<string, int>)
      ensures alignerParams == params && maxWorkers == 0
    {
      alignerParams := params;
      maxWorkers := 0;
    }

    /** Passes exactly when the configuration names a worker-pool size. */
    method Validate() returns (o: Validation)
      ensures o == Pass <==> ThreadsKey in alignerParams
      ensures o.Raised? ==> o.message == MissingThreadsMessage
    {
      if ThreadsKey !in alignerParams {
        return Raised(MissingThreadsMessage);
      }
      o := Pass;
    }

    /** Construction as a whole: record the configuration, validate it, then create the pool.
        A configuration without a pool size raises a runtime error; a pool size below one makes
        the pool raise a value error. */
    static method Create(params: map<string, int>) returns (c: Construction)
      ensures c.Failed? <==> ThreadsKey !in params || params[ThreadsKey] <= 0
      ensures ThreadsKey !in params ==> c == Failed(RuntimeError(MissingThreadsMessage))
      ensures ThreadsKey in params && params[ThreadsKey] <= 0 ==>
        c == Failed(ValueError(BadPoolSizeMessage))
      ensures c.Ready? ==>
        && fresh(c.aligner)
        && c.aligner.Valid()
        && c.aligner.alignerParams == params
        && c.aligner.maxWorkers == params[ThreadsKey]
    {
      var a := new BarcodeAligner(params);
      var o := a.Validate();
      if o.Raised? {
        return Failed(RuntimeError(o.message));
      }
      if params[ThreadsKey] <= 0 {
        return Failed(ValueError(BadPoolSizeMessage));
      }
      a.maxWorkers := params[ThreadsKey];
      c := Ready(a);
    }

    /** Applies HasBarcode to every read and returns the reads in input order, each annotated with
        its own outcome; sequences are left as they were. A read listed twice is annotated twice
        with the same value. */
    method MapReads(basecallResults: seq<Result>, subEd: SubEditDistance) returns (out: seq<Result>)
      requires Valid()
      modifies basecallResults
      ensures out == basecallResults
      ensures forall i :: 0 <= i < |out| ==> out[i].sequence == old(out[i].sequence)
      ensures forall i :: 0 <= i < |out| ==> out[i].readId == old(out[i].readId)
      ensures forall i :: 0 <= i < |out| ==>
        out[i].alignmentData == AlignmentsFor(Outcome(subEd, out[i].sequence))
    {
      out := [];
      for i := 0 to |basecallResults|
        invariant out == basecallResults[..i]
        invariant forall j :: 0 <= j < |basecallResults| ==>
          basecallResults[j].sequence == old(basecallResults[j].sequence)
          && basecallResults[j].readId == old(basecallResults[j].readId)
        invariant forall j :: 0 <= j < i ==>
          basecallResults[j].alignmentData == AlignmentsFor(Outcome(subEd, basecallResults[j].sequence))
      {
        var r := HasBarcode(basecallResults[i], subEd);
        out := out + [r];
      }
    }
  }
}
