/**
 * DelegateSanitizer<T>: a compiled visitor behind the two entry points of
 * ISanitizer<T>. Execution is modelled as sequential function application, so
 * the suspendable entry point completes as soon as the visitor returns.
 */
module Sanitizers {
  import opened Outcomes
  import opened TypeBuilders

  datatype Sanitizer<!V> = DelegateSanitizer(visitor: Visitor<V>) {

    /** SanitizeAsync(ref data): invokes the visitor on the value. */
    function SanitizeAsync(data: V): Outcome<V>
    {
      visitor(data)
    }

    /** Sanitize(ref data): waits for SanitizeAsync; its exception reaches the caller as it is. */
    function Sanitize(data: V): Outcome<V>
    {
      SanitizeAsync(data)
    }
  }

  /**
   * Sanitize as written, for the visitor BuildVisitor produced: invoking a
   * null delegate throws before any transformation runs.
   */
  function SanitizeAsWritten<V>(visitor: Option<Visitor<V>>, data: V): (o: Outcome<V>)
    ensures visitor.None? ==> o == Outcome(data, Some(NullReference))
  {
    match visitor
    case None => Outcome(data, Some(NullReference))
    case Some(v) => DelegateSanitizer(v).Sanitize(data)
  }

  /** As written, a sanitizer compiled from an unconfigured builder throws on every value. */
  lemma EmptyPipelineThrowsAsWritten<V(!new)>(data: V)
    ensures SanitizeAsWritten(BuildVisitorAsWritten(Empty<V>()), data) == Outcome(data, Some(NullReference))
  {
  }

  /** With the corrected BuildVisitor, the same sanitizer leaves every value as it is. */
  lemma EmptyPipelineIsIdentity<V(!new)>(data: V)
    ensures DelegateSanitizer(Build(Empty<V>())).Sanitize(data) == Outcome(data, None)
  {
  }
}
