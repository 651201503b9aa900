# mod_ext in Dafny

A model of the Rust crate `mod_ext`. The crate lets a caller call a free function as if it were a method of any value:
`x.apply(f).pass(a, b)` computes `f(x, a, b)`. So a chain of calls reads left to right instead of as nested calls.

- `PartiallyApplied` pairs a captured receiver (`this`, here `receiver`, since `this` is a Dafny keyword) with a captured extension function.
- Its argument list `Args` is a type-level tag with no runtime field. Dafny's phantom type parameter plays the part of `PhantomData`.
- `apply` captures the receiver by value. `apply_ref` and `apply_mut` are `apply` on a shared or an exclusive reference. These references are modelled as the wrapper datatypes `Ref` and `Mut`.
- There is one `pass` per arity from 0 to 12 (`ModExt.Pass0` … `ModExt.Pass12`). Each one destructures the applicator and returns `extension(receiver, args…)`.
  - The only precondition of `pass` is the extension's own: `p.extension.requires(…)` on a partial arrow `-->`.
  - The result is returned unmodified.
  - Each rule fixes the tag to the tuple of its argument types. Dafny has no one-element tuple, so the one-argument tag is the zero-size marker `Unary<T0>`.
- The rule family itself is modelled in `ArityFamily`. The generator receives twelve slots `arg0: T0 … arg11: T11`. It emits a rule for the whole list and then repeats on the tail. A call with n trailing arguments binds to the rule with n slots, and to none when n ≥ 13.
- The test fixtures `option::as_slice`, `slice::get` and `i32::add_then_multiply` are modelled in `Fixtures`, together with the `it_works` chain `Some(0)` → `[0]` → `0` → `4`.
  - `i32` and `usize` are newtypes with the Rust ranges, `usize` as on a 64-bit target.
  - A slice `&[T]` is the sequence of its elements.

Files: `options.dfy` (Rust's `Option`), `mod_ext.dfy` (applicator, capture, `pass` family, identity laws), `arity_family.dfy` (the 13 invocation rules and binding by arity), `chaining.dfy` (composition of chained calls), `fixtures.dfy` (test fixtures and `it_works`).

## Model

| member | source | states |
|---|---|---|
| `ModExt.Apply` | src/lib.rs:12-18 | the applicator built by `apply` holds exactly the given receiver and exactly the given extension |
| `ModExt.ApplyRef` | src/lib.rs:20-22 | `apply_ref` is `apply` on a shared reference to the receiver, and that reference points at the receiver |
| `ModExt.ApplyMut` | src/lib.rs:24-26 | `apply_mut` is `apply` on an exclusive reference to the receiver, and that reference points at the receiver |
| `ModExt.CaptureRoundTrip` | src/lib.rs:5-9 | the argument tag holds no data: an applicator is equal to the capture of its own receiver and extension, and two applicators are equal exactly when their receivers and extensions are |
| `ModExt.IdentityLaw0` | src/lib.rs:42-46 | arity 0: `apply(x, f).pass()` is `f(x)`, for every extension whose own precondition holds |
| `ModExt.IdentityLaw1` | src/lib.rs:33-37 | arity 1: `apply(x, f).pass(a0)` is `f(x, a0)` |
| `ModExt.IdentityLaw2` | src/lib.rs:33-37 | arity 2: `pass` after `apply` is the direct call `f(x, a0, a1)` |
| `ModExt.IdentityLaw3` | src/lib.rs:33-37 | arity 3: `pass` after `apply` is the direct call |
| `ModExt.IdentityLaw4` | src/lib.rs:33-37 | arity 4: `pass` after `apply` is the direct call |
| `ModExt.IdentityLaw5` | src/lib.rs:33-37 | arity 5: `pass` after `apply` is the direct call |
| `ModExt.IdentityLaw6` | src/lib.rs:33-37 | arity 6: `pass` after `apply` is the direct call |
| `ModExt.IdentityLaw7` | src/lib.rs:33-37 | arity 7: `pass` after `apply` is the direct call |
| `ModExt.IdentityLaw8` | src/lib.rs:33-37 | arity 8: `pass` after `apply` is the direct call |
| `ModExt.IdentityLaw9` | src/lib.rs:33-37 | arity 9: `pass` after `apply` is the direct call |
| `ModExt.IdentityLaw10` | src/lib.rs:33-37 | arity 10: `pass` after `apply` is the direct call |
| `ModExt.IdentityLaw11` | src/lib.rs:33-37 | arity 11: `pass` after `apply` is the direct call |
| `ModExt.IdentityLaw12` | src/lib.rs:33-37 | arity 12, the widest rule, with all slots `arg0: T0 … arg11: T11`: `pass` after `apply` is the direct call |
| `ArityFamily.Expand` | src/lib.rs:31-49 | expanding k slots yields k + 1 rules; rule i takes the slots from position i on, so the last rule is the no-argument base case |
| `ArityFamily.Select` | src/lib.rs:33-34 | binding a call with n arguments finds the first rule of arity n; it reports none exactly when no rule has arity n |
| `ArityFamily.ExpandSelect` | src/lib.rs:31-49 | in an expansion of k slots, a call with n arguments binds to rule k - n when n ≤ k and to no rule otherwise |
| `ArityFamily.ArityCoverage` | src/lib.rs:51-64 | the crate's family has exactly 13 rules: one per arity 0 to 12, the rule of arity n taking the last n slots. A call with 13 or more arguments binds to no rule |
| `Chaining.ChainingComposes` | src/lib.rs:89-97 | two chained stages `apply(apply(x, f).pass(a), g).pass(b)` equal the nested call `g(f(x, a), b)` |
| `Chaining.ChainSnoc` | src/lib.rs:89-97 | appending a one-argument stage to a chain runs exactly when the chain runs and the stage's precondition holds of its result; the longer chain then applies that stage to the chain's result |
| `Chaining.ChainIsNested` | src/lib.rs:89-97 | a left-to-right chain of any number of one-argument stages `(T, A) --> T` over one receiver type runs exactly when the nested call with the last stage outermost does, and then equals it |
| `Fixtures.AsSlice` | src/lib.rs:71-73 | `as_slice` gives at most one element; it gives one exactly when the option is `Some`, and that element is the option's value |
| `Fixtures.Get` | src/lib.rs:77-79 | `get` needs an index below the slice length (Rust panics otherwise); the result is the element at that index, with the rest of the slice around it |
| `Fixtures.AddThenMultiply` | src/lib.rs:83-85 | if neither the sum nor the product overflows `i32`, the result is `this * mul + add * mul` |
| `Fixtures.ItWorks` | src/lib.rs:88-98 | the `it_works` chain starting from `Some(0)` yields 4 |
| `Fixtures.ItWorksTrace` | src/lib.rs:90-97 | the steps of `it_works`: `as_slice` gives `[0]`, `get(0)` gives 0, and the whole chain equals the nested call of the three fixtures |

`ModExt.Pass0` … `ModExt.Pass12` are the operations themselves. They have no row: what they compute is stated by the identity laws above. `Chaining.Chain` and `Chaining.Nested` are the two spellings that `Chaining.ChainIsNested` relates.

`ArityFamily` describes the signatures the generator produces. It is linked to `ModExt.Pass0` … `ModExt.Pass12` only by naming: rule n corresponds to `Pass<n>`, and no lemma relates the two.

## Left out

- Ownership and borrow modes: the lifetime and exclusivity of `&self` and `&mut self` are checked by Rust's borrow checker. `Ref` and `Mut` record only which capture was used.
- Mutation through `&mut`: an extension cannot change the receiver through a `Mut`. Visible mutation belongs to Rust's reference semantics, not to this crate's code. Non-mutation under shared capture holds trivially, because values are immutable.
- Single use: `FnOnce` and moving `self` into `pass` are move semantics with no runtime flag. The model places no limit on reuse and does not add a consumed state.
- Stateful extensions: an extension is a Dafny arrow, so it cannot read or change state. A `FnOnce` closure that mutates what it captured is outside the model, and so is the fact that `pass` runs it exactly once.
- Compile-time rejection: a signature mismatch is a type error, and Dafny's type checker plays that part. Rejecting arity 13 is modelled only as `ArityFamily.Select` finding no rule. The macro's token-level expansion is not modelled; only the set of rules it produces is.
- `#![no_std]`, zero size and no allocation: these cannot be expressed in the model.
- Fixtures.AddThenMultiply: requires that the sum and the product fit in `i32`, which matches a debug build's overflow panic. A release build's wrap-around is not modelled.
- Chaining.ChainIsNested: covers chains whose stages all take one trailing argument and keep one receiver type. Chains that change type or use other arities, such as the `it_works` chain, are covered by the two-stage `Chaining.ChainingComposes` and by `Fixtures.ItWorksTrace`.
- Fixtures.Get: an out-of-range index is a precondition, not an error value, because the source panics rather than returning an error.
