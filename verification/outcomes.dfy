/** Failure-compatible wrappers and the error kinds the cache components raise.

 The source signals failure with Python exceptions. A call that raises before
 any effect is a `Result`; a call that may raise after part of its effect has
 already happened is a `Step`, which keeps the state reached together with the
 exception, exactly as the interpreter would leave it.
 */
module Outcomes {

  datatype Option<+T> = None | Some(value: T) {

    /** Returns the value held in Some, or `default` for None. */
    function GetOr(default: T): T {
      match this
      case Some(v) => v
      case None => default
    }
  }

  /** The exceptions of the source, by kind, with the message they carry. */
  datatype Error =
    | RegisterError(message: string)
    | MonitorError(message: string)
    | WorkerCacheError(message: string)
    | CacheManagerError(message: string)
      // `open` or `shutil.rmtree` on a path that is not there
    | FileNotFound(path: string)
      // an error answer of the object-storage service, by its code
    | ClientError(code: string)
      // an object whose body is not a metadata document
    | Unreadable(bucket: string, key: string)
    | TypeError(message: string)
    | AttributeError(message: string)
      // `ast.literal_eval` on text that is not a Python literal
    | ValueError(message: string)

  datatype Result<+T> = Ok(value: T) | Err(error: Error) {

    predicate IsFailure() {
      Err?
    }

    function PropagateFailure<U>(): Result<U>
      requires Err?
    {
      Err(error)
    }

    function Extract(): T
      requires Ok?
    {
      value
    }
  }

  /** Reading a cache manager's `worker` attribute after `del self.worker`
      when nothing was assigned to it again; both manager generations raise it. */
  const NoWorkerAttribute: Error := AttributeError("'CacheManager' object has no attribute 'worker'")

  /** The state a statement sequence leaves behind and the exception it raised, if any. */
  datatype Step<+S> = Step(state: S, raised: Option<Error>)
}
