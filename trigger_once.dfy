/** trigger_once.py: a wrapper that records that a function was triggered.
    Despite its name it does not stop later calls from reaching the
    function. */
module TriggerOnceDecorator {
  import opened Util

  /** TriggerOnce around `fn`: `calls` lists the arguments fn was invoked
      with, `results` what it returned each time. */
  class TriggerOnce<A, R> {
    var triggered: bool
    var calls: seq<A>
    var results: seq<R>
    const fn: A -> R

    constructor (onTrigger: A -> R)
      ensures fn == onTrigger && !triggered && calls == [] && results == []
    {
      fn := onTrigger;
      triggered := false;
      calls := [];
      results := [];
    }

    /** trigger: marks the object and always calls fn, whose result is
        dropped. */
    method Trigger(arg: A)
      modifies this`triggered, this`calls, this`results
      ensures triggered
      ensures calls == old(calls) + [arg] && results == old(results) + [fn(arg)]
    {
      triggered := true;
      calls := calls + [arg];
      results := results + [fn(arg)];
    }

    /** __call__ is trigger. */
    method Call(arg: A)
      modifies this`triggered, this`calls, this`results
      ensures triggered
      ensures calls == old(calls) + [arg] && results == old(results) + [fn(arg)]
    {
      Trigger(arg);
    }
  }

  /** The function trigger_once returns: every call goes through one shared
      TriggerOnce and returns None; `origFn` is the undecorated function. */
  class Decorated<A, R> {
    const toObj: TriggerOnce<A, R>
    const origFn: A -> R

    constructor (f: A -> R)
      ensures origFn == f && fresh(toObj) && toObj.fn == f
      ensures !toObj.triggered && toObj.calls == [] && toObj.results == []
    {
      origFn := f;
      toObj := new TriggerOnce(f);
    }

    /** `new(*args)`: returns whatever trigger returns, which is None. */
    method Call(arg: A) returns (r: Option<R>)
      modifies toObj`triggered, toObj`calls, toObj`results
      ensures r.None?
      ensures toObj.triggered
      ensures toObj.calls == old(toObj.calls) + [arg]
      ensures toObj.results == old(toObj.results) + [toObj.fn(arg)]
    {
      toObj.Trigger(arg);
      r := None;
    }
  }

  /** Calling a decorated function twice, e.g. from two different instances
      of a class whose method is decorated, invokes the function twice,
      through the same TriggerOnce. */
  method CalledTwice(f: int -> int, first: int, second: int) returns (d: Decorated<int, int>)
    ensures d.toObj.triggered
    ensures d.toObj.calls == [first, second]
    ensures d.toObj.results == [f(first), f(second)]
  {
    d := new Decorated(f);
    var r1 := d.Call(first);
    var r2 := d.Call(second);
  }
}
