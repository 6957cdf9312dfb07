/**
 * A raised Python exception, as far as the self-healing code inspects one:
 * the names of the classes in its method resolution order (its own class
 * first), which decide `isinstance`, and its `str()`.
 */
module Exceptions {

  datatype Exc = Exc(mro: seq<string>, message: string, recoverable: bool)
  {
    /** `type(e).__name__` */
    function TypeName(): string
    {
      if mro == [] then "" else mro[0]
    }
  }

  /** `isinstance(e, cls)` */
  predicate IsInstance(e: Exc, cls: string)
  {
    cls in e.mro
  }

  /** `isinstance(e, tuple(classes))` */
  predicate IsInstanceAny(e: Exc, classes: seq<string>)
  {
    exists c :: c in classes && c in e.mro
  }

  /** An exception raised by the model itself: `cls(message)` directly below `Exception`. */
  function Raise(cls: string, message: string): (e: Exc)
    ensures IsInstance(e, cls) && IsInstance(e, "Exception") && e.TypeName() == cls
  {
    Exc([cls, "Exception", "BaseException", "object"], message, true)
  }
}
