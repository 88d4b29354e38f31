/** The PID controller object of src/autonomous/pid.cpp: its fields, updated
    in place by `SetTarget`, `Reset` and `Calculate`, each specified by the
    functions of PidMath. */
module Pid {
  import opened PidMath

  class PID {
    // fixed after construction
    var kp: real
    var ki: real
    var kd: real
    var minimumOutput: real
    var maximumOutput: real
    var gamma: real

    // changed by SetTarget, Reset and Calculate
    var target: real
    var integral: real
    var lastError: real

    /** What the constructor wrote to the error stream. The controller is
        built and usable whatever this says. */
    ghost var logged: Diagnostic

    function Configuration(): Config
      reads this
    {
      Config(kp, ki, kd, minimumOutput, maximumOutput, gamma)
    }

    function Snapshot(): Memory
      reads this
    {
      Memory(target, integral, lastError)
    }

    /** Stores the parameters as given, clears the integral and the last error,
        then checks the parameters. A failed check is only logged: the object
        keeps the supplied values. The target is left unassigned. */
    constructor (kp: real, ki: real, kd: real, minimumOutput: real, maximumOutput: real, gamma: real)
      ensures Configuration() == Config(kp, ki, kd, minimumOutput, maximumOutput, gamma)
      ensures integral == 0.0 && lastError == 0.0
      ensures logged == Diagnose(Configuration())
    {
      this.kp := kp;
      this.ki := ki;
      this.kd := kd;
      this.minimumOutput := minimumOutput;
      this.maximumOutput := maximumOutput;
      this.gamma := gamma;
      new;
      Reset();
      logged := Diagnose(Configuration());
    }

    /** Sets a new target and forgets all accumulated history. */
    method SetTarget(t: real)
      modifies this
      ensures Snapshot() == Memory(t, 0.0, 0.0)
      ensures Configuration() == old(Configuration()) && logged == old(logged)
    {
      target := t;
      integral := 0.0;
      lastError := 0.0;
    }

    /** Forgets the accumulated history, keeping the target. */
    method Reset()
      modifies this
      ensures Snapshot() == Cleared(old(Snapshot()))
      ensures Configuration() == old(Configuration()) && logged == old(logged)
    {
      integral := 0.0;
      lastError := 0.0;
    }

    /** One control step against the measured `value`: updates the last error
        and the discounted integral and returns the clamped, sign-preserving
        output. */
    method Calculate(value: real) returns (output: real)
      modifies this
      ensures Snapshot() == Advance(old(Configuration()), old(Snapshot()), value)
      ensures output == Output(old(Configuration()), old(Snapshot()), value)
      ensures Configuration() == old(Configuration()) && logged == old(logged)
    {
      ghost var raw := RawOutput(Configuration(), Snapshot(), value);
      var error := target - value;
      var derivative := error - lastError;
      integral := integral * gamma;
      integral := integral + error;
      lastError := error;

      output := kp * error + ki * integral + kd * derivative;
      assert output == raw;

      var isNegative := false;
      if output < 0.0 {
        isNegative := true;
        output := -output;
      }
      if output > maximumOutput {
        output := maximumOutput;
      }
      if output < minimumOutput {
        output := minimumOutput;
      }
      if isNegative {
        output := -output;
      }
    }
  }

  /** A caller's view: two controllers with the same configuration but any
      histories give the same output once both are given the same target, the
      output of a controller that has never seen an error. */
  method RetargetForgetsHistory(a: PID, b: PID, t: real, value: real)
      returns (outA: real, outB: real)
    requires a != b && a.Configuration() == b.Configuration()
    modifies a, b
    ensures outA == outB == Output(old(a.Configuration()), Memory(t, 0.0, 0.0), value)
  {
    a.SetTarget(t);
    b.SetTarget(t);
    outA := a.Calculate(value);
    outB := b.Calculate(value);
  }
}
