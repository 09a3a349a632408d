/** How a provider failure is classified before the engine schedules around it. */
module ProviderErrors {

  datatype ErrorClass = Retryable | RateLimited | Conflict | NotFound | Invalid | Quota | FatalError

  datatype SideEffect = EffectNone | EffectMaybe

  /** A provider call fails with a typed error or with anything else. */
  datatype Failure = Typed(errorClass: ErrorClass, sideEffect: SideEffect) | Untyped

  /** Unknown errors are retryable, never silently terminal. */
  function Classify(f: Failure): ErrorClass {
    if f.Typed? then f.errorClass else Retryable
  }

  /** Only a typed error marked as such proves the mutation never reached the provider. */
  function Effect(f: Failure): SideEffect {
    if f.Typed? && f.sideEffect.EffectNone? then EffectNone else EffectMaybe
  }
}
