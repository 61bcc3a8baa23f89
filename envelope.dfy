/**
 * `EnvelopeParams` (src/lib/envelope.ts): four numbers with defaults,
 * setters that store their argument unchanged and getters that read it.
 */
module Envelope {

  class EnvelopeParams {
    var attack: real
    var decay: real
    var sustain: real
    var release: real

    constructor ()
      ensures attack == 0.0 && decay == 0.0 && sustain == 1.0 && release == 0.0
    {
      attack := 0.0;
      decay := 0.0;
      sustain := 1.0;
      release := 0.0;
    }

    method SetAttack(value: real)
      modifies this
      ensures attack == value
      ensures decay == old(decay) && sustain == old(sustain) && release == old(release)
    {
      attack := value;
    }

    method SetDecay(value: real)
      modifies this
      ensures decay == value
      ensures attack == old(attack) && sustain == old(sustain) && release == old(release)
    {
      decay := value;
    }

    /** No clamping: a sustain outside [0, 1] is stored as given. */
    method SetSustain(value: real)
      modifies this
      ensures sustain == value
      ensures attack == old(attack) && decay == old(decay) && release == old(release)
    {
      sustain := value;
    }

    method SetRelease(value: real)
      modifies this
      ensures release == value
      ensures attack == old(attack) && decay == old(decay) && sustain == old(sustain)
    {
      release := value;
    }

    method GetAttack() returns (value: real)
      ensures value == attack
    {
      value := attack;
    }

    method GetDecay() returns (value: real)
      ensures value == decay
    {
      value := decay;
    }

    method GetSustain() returns (value: real)
      ensures value == sustain
    {
      value := sustain;
    }

    method GetRelease() returns (value: real)
      ensures value == release
    {
      value := release;
    }
  }

  /**
   * Setting all four fields and reading them back returns exactly what was
   * set, whatever the values (negative times and sustain above 1 included).
   */
  method SetThenGet(env: EnvelopeParams, a: real, d: real, s: real, r: real)
      returns (a': real, d': real, s': real, r': real)
    modifies env
    ensures a' == a && d' == d && s' == s && r' == r
  {
    env.SetAttack(a);
    env.SetDecay(d);
    env.SetSustain(s);
    env.SetRelease(r);
    a' := env.GetAttack();
    d' := env.GetDecay();
    s' := env.GetSustain();
    r' := env.GetRelease();
  }
}
