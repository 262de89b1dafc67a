/** Option, the errors the core raises, and a failure-compatible Result over them. */
module Wrappers {

  datatype Option<+T> = None | Some(value: T) {
    /** Python's `x if x is not None else default`. */
    function GetOr(default: T): T {
      if Some? then value else default
    }
  }

  /** The exceptions the core raises, by cause. The Python exception class is noted per case. */
  datatype Error =
    | KeyMissing(key: string)          // KeyError from payload["key"]
    | NotConvertible(target: string)   // ValueError or TypeError from int(), float(), str(), dict()
    | Malformed(what: string)          // AttributeError or TypeError on a document of the wrong shape
    | DivisionByZero                   // ZeroDivisionError
    | NoChunks                         // ValueError("No chunks produced from script text")
    | ChunkNotFound(index: int)        // ValueError("Chunk {index} not found")
    | ImportPathRequired               // ValueError / Exception: import mode without a file path
    | UnsupportedMode(mode: string)    // ValueError("Unsupported mode: ...")
    | FileMissing(path: string)        // FileNotFoundError or Exception("... not found")

  datatype Result<+T> = Ok(value: T) | Err(error: Error) {
    predicate IsFailure() {
      Err?
    }

    function PropagateFailure<U>(): Result<U>
      requires Err?
    {
      Err(error)
    }

    function Extract(): T
      requires Ok?
    {
      value
    }
  }
}
