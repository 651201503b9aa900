/**
  The applicator of the crate (src/lib.rs): a captured receiver paired with a
  captured extension function, and the `pass` family that calls the extension
  on the receiver and the trailing arguments.

  The argument list `Args` is a type-level tag only: `PartiallyApplied` has
  no field for it, just as the Rust struct stores a zero-size `PhantomData`.
  Each `Pass<k>` fixes the tag to the tuple of its k argument types, so the
  tag alone decides which invocation rule a call can use.
 */
module ModExt {

  /** A shared reference `&T` to a receiver. */
  datatype Ref<+T> = Ref(target: T)

  /** An exclusive reference `&mut T` to a receiver. */
  datatype Mut<+T> = Mut(target: T)

  /** Argument tag of the one-argument rule. Dafny has no one-element tuple
      type, so the Rust tag `(T0,)` is spelled with this zero-size marker. */
  datatype Unary<T0> = Unary

  /** The captured receiver and extension; `Args` is carried by the type only. */
  datatype PartiallyApplied<+This, +Ext, Args> = PartiallyApplied(receiver: This, extension: Ext)

  /** `apply`: capture the receiver by value together with the extension. */
  function Apply<This, Ext, Args>(x: This, extension: Ext): (p: PartiallyApplied<This, Ext, Args>)
    ensures p.receiver == x
    ensures p.extension == extension
  {
    PartiallyApplied(x, extension)
  }

  /** `apply_ref`: `apply` on a shared reference to the receiver. */
  function ApplyRef<This, Ext, Args>(x: This, extension: Ext): (p: PartiallyApplied<Ref<This>, Ext, Args>)
    ensures p == Apply(Ref(x), extension)
    ensures p.receiver.target == x
  {
    Apply(Ref(x), extension)
  }

  /** `apply_mut`: `apply` on an exclusive reference to the receiver. */
  function ApplyMut<This, Ext, Args>(x: This, extension: Ext): (p: PartiallyApplied<Mut<This>, Ext, Args>)
    ensures p == Apply(Mut(x), extension)
    ensures p.receiver.target == x
  {
    Apply(Mut(x), extension)
  }

  /** The tag holds no data: an applicator is determined by its receiver and
      extension, so every applicator is the capture of its own two parts. */
  lemma CaptureRoundTrip<This, Ext, Args>(p: PartiallyApplied<This, Ext, Args>, q: PartiallyApplied<This, Ext, Args>)
    ensures Apply(p.receiver, p.extension) == p
    ensures p == q <==> p.receiver == q.receiver && p.extension == q.extension
  {
  }

  /** `pass` with 0 trailing arguments: calls the extension on the receiver. */
  function Pass0<This, U>(p: PartiallyApplied<This, (This --> U), ()>): U
    requires p.extension.requires(p.receiver)
  {
    var PartiallyApplied(receiver, extension) := p;
    extension(receiver)
  }

  /** `pass` with 1 trailing argument: calls the extension on the receiver and the arguments. */
  function Pass1<This, T0, U>(p: PartiallyApplied<This, ((This, T0) --> U), Unary<T0>>, a0: T0): U
    requires p.extension.requires(p.receiver, a0)
  {
    var PartiallyApplied(receiver, extension) := p;
    extension(receiver, a0)
  }

  /** `pass` with 2 trailing arguments: calls the extension on the receiver and the arguments. */
  function Pass2<This, T0, T1, U>(p: PartiallyApplied<This, ((This, T0, T1) --> U), (T0, T1)>, a0: T0, a1: T1): U
    requires p.extension.requires(p.receiver, a0, a1)
  {
    var PartiallyApplied(receiver, extension) := p;
    extension(receiver, a0, a1)
  }

  /** `pass` with 3 trailing arguments: calls the extension on the receiver and the arguments. */
  function Pass3<This, T0, T1, T2, U>(p: PartiallyApplied<This, ((This, T0, T1, T2) --> U), (T0, T1, T2)>, a0: T0, a1: T1, a2: T2): U
    requires p.extension.requires(p.receiver, a0, a1, a2)
  {
    var PartiallyApplied(receiver, extension) := p;
    extension(receiver, a0, a1, a2)
  }

  /** `pass` with 4 trailing arguments: calls the extension on the receiver and the arguments. */
  function Pass4<This, T0, T1, T2, T3, U>(p: PartiallyApplied<This, ((This, T0, T1, T2, T3) --> U), (T0, T1, T2, T3)>, a0: T0, a1: T1, a2: T2, a3: T3): U
    requires p.extension.requires(p.receiver, a0, a1, a2, a3)
  {
    var PartiallyApplied(receiver, extension) := p;
    extension(receiver, a0, a1, a2, a3)
  }

  /** `pass` with 5 trailing arguments: calls the extension on the receiver and the arguments. */
  function Pass5<This, T0, T1, T2, T3, T4, U>(p: PartiallyApplied<This, ((This, T0, T1, T2, T3, T4) --> U), (T0, T1, T2, T3, T4)>, a0: T0, a1: T1, a2: T2, a3: T3, a4: T4): U
    requires p.extension.requires(p.receiver, a0, a1, a2, a3, a4)
  {
    var PartiallyApplied(receiver, extension) := p;
    extension(receiver, a0, a1, a2, a3, a4)
  }

  /** `pass` with 6 trailing arguments: calls the extension on the receiver and the arguments. */
  function Pass6<This, T0, T1, T2, T3, T4, T5, U>(p: PartiallyApplied<This, ((This, T0, T1, T2, T3, T4, T5) --> U), (T0, T1, T2, T3, T4, T5)>, a0: T0, a1: T1, a2: T2, a3: T3, a4: T4, a5: T5): U
    requires p.extension.requires(p.receiver, a0, a1, a2, a3, a4, a5)
  {
    var PartiallyApplied(receiver, extension) := p;
    extension(receiver, a0, a1, a2, a3, a4, a5)
  }

  /** `pass` with 7 trailing arguments: calls the extension on the receiver and the arguments. */
  function Pass7<This, T0, T1, T2, T3, T4, T5, T6, U>(p: PartiallyApplied<This, ((This, T0, T1, T2, T3, T4, T5, T6) --> U), (T0, T1, T2, T3, T4, T5, T6)>, a0: T0, a1: T1, a2: T2, a3: T3, a4: T4, a5: T5, a6: T6): U
    requires p.extension.requires(p.receiver, a0, a1, a2, a3, a4, a5, a6)
  {
    var PartiallyApplied(receiver, extension) := p;
    extension(receiver, a0, a1, a2, a3, a4, a5, a6)
  }

  /** `pass` with 8 trailing arguments: calls the extension on the receiver and the arguments. */
  function Pass8<This, T0, T1, T2, T3, T4, T5, T6, T7, U>(p: PartiallyApplied<This, ((This, T0, T1, T2, T3, T4, T5, T6, T7) --> U), (T0, T1, T2, T3, T4, T5, T6, T7)>, a0: T0, a1: T1, a2: T2, a3: T3, a4: T4, a5: T5, a6: T6, a7: T7): U
    requires p.extension.requires(p.receiver, a0, a1, a2, a3, a4, a5, a6, a7)
  {
    var PartiallyApplied(receiver, extension) := p;
    extension(receiver, a0, a1, a2, a3, a4, a5, a6, a7)
  }

  /** `pass` with 9 trailing arguments: calls the extension on the receiver and the arguments. */
  function Pass9<This, T0, T1, T2, T3, T4, T5, T6, T7, T8, U>(p: PartiallyApplied<This, ((This, T0, T1, T2, T3, T4, T5, T6, T7, T8) --> U), (T0, T1, T2, T3, T4, T5, T6, T7, T8)>, a0: T0, a1: T1, a2: T2, a3: T3, a4: T4, a5: T5, a6: T6, a7: T7, a8: T8): U
    requires p.extension.requires(p.receiver, a0, a1, a2, a3, a4, a5, a6, a7, a8)
  {
    var PartiallyApplied(receiver, extension) := p;
    extension(receiver, a0, a1, a2, a3, a4, a5, a6, a7, a8)
  }

  /** `pass` with 10 trailing arguments: calls the extension on the receiver and the arguments. */
  function Pass10<This, T0, T1, T2, T3, T4, T5, T6, T7, T8, T9, U>(p: PartiallyApplied<This, ((This, T0, T1, T2, T3, T4, T5, T6, T7, T8, T9) --> U), (T0, T1, T2, T3, T4, T5, T6, T7, T8, T9)>, a0: T0, a1: T1, a2: T2, a3: T3, a4: T4, a5: T5, a6: T6, a7: T7, a8: T8, a9: T9): U
    requires p.extension.requires(p.receiver, a0, a1, a2, a3, a4, a5, a6, a7, a8, a9)
  {
    var PartiallyApplied(receiver, extension) := p;
    extension(receiver, a0, a1, a2, a3, a4, a5, a6, a7, a8, a9)
  }

  /** `pass` with 11 trailing arguments: calls the extension on the receiver and the arguments. */
  function Pass11<This, T0, T1, T2, T3, T4, T5, T6, T7, T8, T9, T10, U>(p: PartiallyApplied<This, ((This, T0, T1, T2, T3, T4, T5, T6, T7, T8, T9, T10) --> U), (T0, T1, T2, T3, T4, T5, T6, T7, T8, T9, T10)>, a0: T0, a1: T1, a2: T2, a3: T3, a4: T4, a5: T5, a6: T6, a7: T7, a8: T8, a9: T9, a10: T10): U
    requires p.extension.requires(p.receiver, a0, a1, a2, a3, a4, a5, a6, a7, a8, a9, a10)
  {
    var PartiallyApplied(receiver, extension) := p;
    extension(receiver, a0, a1, a2, a3, a4, a5, a6, a7, a8, a9, a10)
  }

  /** `pass` with 12 trailing arguments: calls the extension on the receiver and the arguments. */
  function Pass12<This, T0, T1, T2, T3, T4, T5, T6, T7, T8, T9, T10, T11, U>(p: PartiallyApplied<This, ((This, T0, T1, T2, T3, T4, T5, T6, T7, T8, T9, T10, T11) --> U), (T0, T1, T2, T3, T4, T5, T6, T7, T8, T9, T10, T11)>, a0: T0, a1: T1, a2: T2, a3: T3, a4: T4, a5: T5, a6: T6, a7: T7, a8: T8, a9: T9, a10: T10, a11: T11): U
    requires p.extension.requires(p.receiver, a0, a1, a2, a3, a4, a5, a6, a7, a8, a9, a10, a11)
  {
    var PartiallyApplied(receiver, extension) := p;
    extension(receiver, a0, a1, a2, a3, a4, a5, a6, a7, a8, a9, a10, a11)
  }

  // Identity laws: capturing and then passing is the direct call, for every arity.

  lemma IdentityLaw0<This, U>(x: This, f: This --> U)
    requires f.requires(x)
    ensures Pass0(Apply(x, f)) == f(x)
  {
  }

  lemma IdentityLaw1<This, T0, U>(x: This, f: (This, T0) --> U, a0: T0)
    requires f.requires(x, a0)
    ensures Pass1(Apply(x, f), a0) == f(x, a0)
  {
  }

  lemma IdentityLaw2<This, T0, T1, U>(x: This, f: (This, T0, T1) --> U, a0: T0, a1: T1)
    requires f.requires(x, a0, a1)
    ensures Pass2(Apply(x, f), a0, a1) == f(x, a0, a1)
  {
  }

  lemma IdentityLaw3<This, T0, T1, T2, U>(x: This, f: (This, T0, T1, T2) --> U, a0: T0, a1: T1, a2: T2)
    requires f.requires(x, a0, a1, a2)
    ensures Pass3(Apply(x, f), a0, a1, a2) == f(x, a0, a1, a2)
  {
  }

  lemma IdentityLaw4<This, T0, T1, T2, T3, U>(x: This, f: (This, T0, T1, T2, T3) --> U, a0: T0, a1: T1, a2: T2, a3: T3)
    requires f.requires(x, a0, a1, a2, a3)
    ensures Pass4(Apply(x, f), a0, a1, a2, a3) == f(x, a0, a1, a2, a3)
  {
  }

  lemma IdentityLaw5<This, T0, T1, T2, T3, T4, U>(x: This, f: (This, T0, T1, T2, T3, T4) --> U, a0: T0, a1: T1, a2: T2, a3: T3, a4: T4)
    requires f.requires(x, a0, a1, a2, a3, a4)
    ensures Pass5(Apply(x, f), a0, a1, a2, a3, a4) == f(x, a0, a1, a2, a3, a4)
  {
  }

  lemma IdentityLaw6<This, T0, T1, T2, T3, T4, T5, U>(x: This, f: (This, T0, T1, T2, T3, T4, T5) --> U, a0: T0, a1: T1, a2: T2, a3: T3, a4: T4, a5: T5)
    requires f.requires(x, a0, a1, a2, a3, a4, a5)
    ensures Pass6(Apply(x, f), a0, a1, a2, a3, a4, a5) == f(x, a0, a1, a2, a3, a4, a5)
  {
  }

  lemma IdentityLaw7<This, T0, T1, T2, T3, T4, T5, T6, U>(x: This, f: (This, T0, T1, T2, T3, T4, T5, T6) --> U, a0: T0, a1: T1, a2: T2, a3: T3, a4: T4, a5: T5, a6: T6)
    requires f.requires(x, a0, a1, a2, a3, a4, a5, a6)
    ensures Pass7(Apply(x, f), a0, a1, a2, a3, a4, a5, a6) == f(x, a0, a1, a2, a3, a4, a5, a6)
  {
  }

  lemma IdentityLaw8<This, T0, T1, T2, T3, T4, T5, T6, T7, U>(x: This, f: (This, T0, T1, T2, T3, T4, T5, T6, T7) --> U, a0: T0, a1: T1, a2: T2, a3: T3, a4: T4, a5: T5, a6: T6, a7: T7)
    requires f.requires(x, a0, a1, a2, a3, a4, a5, a6, a7)
    ensures Pass8(Apply(x, f), a0, a1, a2, a3, a4, a5, a6, a7) == f(x, a0, a1, a2, a3, a4, a5, a6, a7)
  {
  }

  lemma IdentityLaw9<This, T0, T1, T2, T3, T4, T5, T6, T7, T8, U>(x: This, f: (This, T0, T1, T2, T3, T4, T5, T6, T7, T8) --> U, a0: T0, a1: T1, a2: T2, a3: T3, a4: T4, a5: T5, a6: T6, a7: T7, a8: T8)
    requires f.requires(x, a0, a1, a2, a3, a4, a5, a6, a7, a8)
    ensures Pass9(Apply(x, f), a0, a1, a2, a3, a4, a5, a6, a7, a8) == f(x, a0, a1, a2, a3, a4, a5, a6, a7, a8)
  {
  }

  lemma IdentityLaw10<This, T0, T1, T2, T3, T4, T5, T6, T7, T8, T9, U>(x: This, f: (This, T0, T1, T2, T3, T4, T5, T6, T7, T8, T9) --> U, a0: T0, a1: T1, a2: T2, a3: T3, a4: T4, a5: T5, a6: T6, a7: T7, a8: T8, a9: T9)
    requires f.requires(x, a0, a1, a2, a3, a4, a5, a6, a7, a8, a9)
    ensures Pass10(Apply(x, f), a0, a1, a2, a3, a4, a5, a6, a7, a8, a9) == f(x, a0, a1, a2, a3, a4, a5, a6, a7, a8, a9)
  {
  }

  lemma IdentityLaw11<This, T0, T1, T2, T3, T4, T5, T6, T7, T8, T9, T10, U>(x: This, f: (This, T0, T1, T2, T3, T4, T5, T6, T7, T8, T9, T10) --> U, a0: T0, a1: T1, a2: T2, a3: T3, a4: T4, a5: T5, a6: T6, a7: T7, a8: T8, a9: T9, a10: T10)
    requires f.requires(x, a0, a1, a2, a3, a4, a5, a6, a7, a8, a9, a10)
    ensures Pass11(Apply(x, f), a0, a1, a2, a3, a4, a5, a6, a7, a8, a9, a10) == f(x, a0, a1, a2, a3, a4, a5, a6, a7, a8, a9, a10)
  {
  }

  lemma IdentityLaw12<This, T0, T1, T2, T3, T4, T5, T6, T7, T8, T9, T10, T11, U>(x: This, f: (This, T0, T1, T2, T3, T4, T5, T6, T7, T8, T9, T10, T11) --> U, a0: T0, a1: T1, a2: T2, a3: T3, a4: T4, a5: T5, a6: T6, a7: T7, a8: T8, a9: T9, a10: T10, a11: T11)
    requires f.requires(x, a0, a1, a2, a3, a4, a5, a6, a7, a8, a9, a10, a11)
    ensures Pass12(Apply(x, f), a0, a1, a2, a3, a4, a5, a6, a7, a8, a9, a10, a11) == f(x, a0, a1, a2, a3, a4, a5, a6, a7, a8, a9, a10, a11)
  {
  }

}
