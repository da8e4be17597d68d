# Video timing estimator (mediasoup worker), modelled in Dafny

This project models the RTC video timing estimator of the mediasoup worker. The
estimator turns a sender's video timing timestamp into the receiver's clock. It
keeps a smoothed round-trip time (RTT) and subtracts half of it from the receive
timestamp. The model has two parts:

- `DefaultEstimator` (`default_estimator.dfy`) is the built-in
  `DefaultVideoTimingEstimator`. Its whole state is one `int64_t rtt`, and the
  literal value -1 means "no sample yet". The first sample is stored as it is.
  Later samples are folded in with the 3:1 average `(rtt * 3 + sample) / 4`.
  `OnVideoTiming` fails without a sample. Otherwise it writes
  `receiveTimestamp - rtt / 2`. The class `DefaultVideoTimingEstimator` keeps
  `rtt` in a mutable field. Its methods are specified by the functions `Smooth`,
  `ClockSync` and `Step`, and `Run` replays a whole history of calls. The lemmas
  prove properties of those histories.
- `EstimatorFactory` (`estimator_factory.dfy`) is `VideoTimingEstimator::Create`.
  The class `Registry` holds the function-local statics: the once flag and the
  two entry-point slots. The first `Create` runs discovery and fills both slots
  or neither; the slots never change afterwards. Each call returns a handle that
  pairs an instance with its deleter. The handle holds an external instance only
  when both slots are filled and the external create function returned an
  instance. Otherwise it holds a new default estimator.

`CppInt` (`cpp_int.dfy`) gives the `int64_t` range and `TruncDiv`, C++'s
truncating `/`. Dafny's own `/` rounds differently for negative dividends.

Foreign outcomes are parameters of `Registry.Create`:

- `discovery` says how discovery ended: the environment variable is unset, the
  module does not load, the create symbol is missing, the destroy symbol is
  missing, or both symbols resolved.
- `factoryResult` is what the external create function returns; `None` is null.
  It is ignored unless both slots are filled, because the C++ does not call the
  function then.

Function pointers and external objects are opaque numeric identities.

Two consequences of the code are worth knowing:

- Any value of -1 means "no sample", not only the initial state. A sample of -1
  leaves the estimator without a sample. So does a value of -1 reached by
  averaging, for example old value -2 and sample 2 (`SentinelCanBeReentered`).
  The next sample is then taken as it is, without smoothing.
- On failure, `OnVideoTiming` does not write its output. The model returns the
  caller's prior value unchanged.

## Model

| member | source | states |
|---|---|---|
| `CppInt.TruncDiv` | worker/src/RTC/VideoTimingEstimator.cpp:75 | The quotient rounds toward zero. The remainder has the dividend's sign and is smaller than the divisor, and the quotient is never further from zero than the dividend. This is the C++ `/` used by the 3:1 average and the half-RTT offset. |
| `DefaultEstimator.DefaultVideoTimingEstimator.constructor` | worker/src/RTC/VideoTimingEstimator.cpp:96 | A new default estimator starts with `rtt == -1` (the member initializer), which means no sample. |
| `DefaultEstimator.DefaultVideoTimingEstimator.Reset` | worker/src/RTC/VideoTimingEstimator.cpp:62-65 | From any state, `rtt` becomes -1. The new state does not depend on the old one, so `Reset` is idempotent. |
| `DefaultEstimator.DefaultVideoTimingEstimator.OnRtt` | worker/src/RTC/VideoTimingEstimator.cpp:67-76 | If `rtt` was -1, the sample is stored exactly. Otherwise `rtt` becomes the truncated `(old * 3 + sample) / 4`. The result stays in `int64_t`, provided the products do not overflow. |
| `DefaultEstimator.DefaultVideoTimingEstimator.OnPacketReceived` | worker/src/RTC/VideoTimingEstimator.cpp:78-81 | Changes no state. |
| `DefaultEstimator.DefaultVideoTimingEstimator.OnVideoTiming` | worker/src/RTC/VideoTimingEstimator.cpp:83-93 | Succeeds exactly when `rtt != -1`. On success, the output is `receiveTimestamp - TruncDiv(rtt, 2)`, whatever the send timestamp. On failure, the caller's output variable keeps its prior value. |
| `DefaultEstimator.SmoothBetween` | worker/src/RTC/VideoTimingEstimator.cpp:75 | Once a sample exists, the next smoothed value lies between `min(old, sample)` and `max(old, sample)`, for any signs. |
| `DefaultEstimator.SamplesStayWithin` | worker/src/RTC/VideoTimingEstimator.cpp:67-76 | Feeding samples that lie in `[lo, hi]` ends in `[lo, hi]`, starting from no sample or from a value in that range. When -1 lies outside `[lo, hi]`, one or more samples never end in the sentinel. |
| `DefaultEstimator.NonNegativeSamplesKeepASample` | worker/src/RTC/VideoTimingEstimator.cpp:67-92 | Start from no sample and feed one or more non-negative RTTs. The smoothed value is then between 0 and the largest sample, so a timing request succeeds. |
| `DefaultEstimator.RunAppend` | worker/src/RTC/VideoTimingEstimator.cpp:62-81 | Replaying two histories in turn gives the same state as replaying their concatenation. |
| `DefaultEstimator.RunThenSample` | worker/src/RTC/VideoTimingEstimator.cpp:69-75 | After any history, the next `OnRtt` stores the sample exactly if the state is -1. Otherwise it applies the truncated 3:1 average to the state the history left. |
| `DefaultEstimator.ResetForgetsHistory` | worker/src/RTC/VideoTimingEstimator.cpp:62-65 | A `Reset` after any history returns to -1, so the next timing request fails. A second `Reset` changes nothing. |
| `DefaultEstimator.PacketsAreInert` | worker/src/RTC/VideoTimingEstimator.cpp:78-81 | Removing every `OnPacketReceived` from a history changes neither the final state nor any timing answer. |
| `DefaultEstimator.WithoutPacketsKeepsOthers` | worker/src/RTC/VideoTimingEstimator.cpp:78-81 | Taking the packet calls out of a history keeps exactly its other calls and adds none. |
| `DefaultEstimator.WithoutPacketsAppend` | worker/src/RTC/VideoTimingEstimator.cpp:78-81 | Taking packet calls out distributes over concatenation, and a single call is kept unless it is a packet. So the remaining calls keep their order. |
| `DefaultEstimator.SentinelCanBeReentered` | worker/src/RTC/VideoTimingEstimator.cpp:69-75 | A first sample of -1 leaves the estimator without a sample. So do -2 then 2, whose average truncates to -1. A following 7 is then stored unsmoothed. |
| `DefaultEstimator.WorkedExamples` | worker/src/RTC/VideoTimingEstimator.cpp:67-92 | 100 gives 100, then 300 gives 150. RTT 100 with receive time 1000 gives 950, and RTT 150 gives 925. With no sample there is no answer. |
| `DefaultEstimator.TimingScenario` | worker/src/RTC/VideoTimingEstimator.cpp:56-93 | Driving one instance through the method contracts alone gives these results in order: failure before any sample, then 950, then 925 with a packet received in between, then failure after `Reset`. |
| `EstimatorFactory.CreateDefault` | worker/src/RTC/VideoTimingEstimator.cpp:56-60 | Returns a new default estimator with no sample, paired with the default deleter. |
| `EstimatorFactory.Registry.constructor` | worker/src/RTC/VideoTimingEstimator.cpp:104-106 | At process start, discovery has not run and both entry-point slots are null. |
| `EstimatorFactory.Registry.RunDiscovery` | worker/src/RTC/VideoTimingEstimator.cpp:112-152 | Discovery stops at the first failing step: unset environment, failed load, missing create symbol, missing destroy symbol. On a failure both slots stay null. Only full success fills both. |
| `EstimatorFactory.Registry.Create` | worker/src/RTC/VideoTimingEstimator.cpp:99-174 | The first call fixes the slots from discovery. Later calls leave them unchanged and ignore discovery. The returned handle carries the selected instance with the deleter of its origin. A default instance is fresh and has no sample. |
| `EstimatorFactory.ExternalOnlyWhenEverythingSucceeds` | worker/src/RTC/VideoTimingEstimator.cpp:155-173 | The factory selects an external instance if and only if discovery resolved both symbols and the external create function returned an instance. It then pairs that instance with the discovered destroy function. |
| `EstimatorFactory.FailOpen` | worker/src/RTC/VideoTimingEstimator.cpp:112-170 | Each of these falls back to the default: unset environment, failed load, either missing symbol, or a null instance from the module. |
| `EstimatorFactory.DeleterMatchesOrigin` | worker/src/RTC/VideoTimingEstimator.cpp:155-173 | A handle that realises the factory's decision has the default deleter exactly when it holds a default instance. An external instance always comes with the module's destroy function, and the module's create function produced it. |
| `EstimatorFactory.CreateTwice` | worker/src/RTC/VideoTimingEstimator.cpp:104-173 | Over two calls, the second call's discovery outcome is ignored, and both calls decide from the slots the first call fixed. A null instance from the module makes only its own call fall back; once discovery resolved, a later call with an instance still gets the external one and the module's destroy function. |

## Left out

- Dynamic loading (`LoadModule`, `ModuleGetSymbol` via `dlopen`/`dlsym` or `LoadLibrary`/`GetProcAddress`) is a foreign OS call. Its outcome is the `Discovery` parameter.
- The `std::getenv` lookup of `MEDIASOUP_VIDEOTIMING_MODULE` is process-environment I/O. It is folded into `Discovery.EnvUnset`.
- `std::call_once` thread safety is not modelled. Only its sequential effect, running at most once, is modelled, by the `loaded` flag.
- The debug and warning log calls have no behavioural effect.
- Memory management is not modelled: the `delete` in `DefaultVideoTimingEstimator::Destroy`, the `unique_ptr` custom-deleter plumbing, and calling the deleter when a handle dies. Deleter identity is a tag (`Deleter`).
- The `extern "C"` export macros for extension builds are a linkage concern.
- The abstract `VideoTimingEstimator` interface is not a Dafny trait, because traits are not used here. Its two variants are the `Instance` datatype. What an external instance does is foreign code and is not modelled.
- `int64_t` overflow in `rtt * 3`, `rtt * 3 + sample` and `receiveTimestamp - rtt / 2` is undefined behaviour in C++. The methods require these values to fit in `int64_t` instead of modelling wrap-around. The specification functions use unbounded integers.
- The reference out-parameter of `OnVideoTiming` is modelled as an input (`prior`) plus a returned value, not as a write through an alias.
