/**
 * Value types shared by the control path: vectors, the Unreal-side control
 * records (FWalkerControl, FSingleAgentControl, FVehicleControl) and small
 * arithmetic helpers.  Floats are modelled as `real`.
 */
module CarlaTypes {

  datatype Option<T> = None | Some(value: T)

  /** FVector / carla_vector3d. */
  datatype Vector3 = Vector3(x: real, y: real, z: real)

  const Origin: Vector3 := Vector3(0.0, 0.0, 0.0)

  function Add(a: Vector3, b: Vector3): Vector3
  {
    Vector3(a.x + b.x, a.y + b.y, a.z + b.z)
  }

  function Sub(a: Vector3, b: Vector3): Vector3
  {
    Vector3(a.x - b.x, a.y - b.y, a.z - b.z)
  }

  function Scale(a: Vector3, k: real): Vector3
  {
    Vector3(a.x * k, a.y * k, a.z * k)
  }

  function Abs(x: real): real
  {
    if x < 0.0 then -x else x
  }

  function MinNat(a: nat, b: nat): nat
  {
    if a < b then a else b
  }

  /**
   * Whether `a` is what is left of the queue `b` after some elements were
   * taken from its front.  Stated recursively so that the verifier unfolds
   * it only on demand; `IsSuffixIff` gives the slice form.
   */
  predicate IsSuffix<T(==)>(a: seq<T>, b: seq<T>)
    decreases |b|
  {
    a == b || (b != [] && IsSuffix(a, b[1..]))
  }

  /** Taking `k` elements from the front leaves a suffix. */
  lemma {:induction false} DropIsSuffix<T>(b: seq<T>, k: nat)
    requires k <= |b|
    ensures IsSuffix(b[k..], b)
    decreases k
  {
    if k > 0 {
      DropIsSuffix(b[1..], k - 1);
      assert b[1..][k - 1..] == b[k..];
    }
  }

  /** A suffix is exactly the last |a| elements of `b`. */
  lemma {:induction false} IsSuffixIff<T>(a: seq<T>, b: seq<T>)
    ensures IsSuffix(a, b) <==> |a| <= |b| && a == b[|b| - |a|..]
    decreases |b|
  {
    if |a| <= |b| && a == b[|b| - |a|..] {
      DropIsSuffix(b, |b| - |a|);
    }
    if IsSuffix(a, b) && a != b {
      IsSuffixIff(a, b[1..]);
      assert b[1..][|b| - 1 - |a|..] == b[|b| - |a|..];
    }
  }

  /**
   * FVehicleControl: the five inputs every control path writes
   * (Steer, Throttle, Brake, bHandBrake, bReverse).
   */
  datatype VehicleControl = VehicleControl(
    steer: real,
    throttle: real,
    brake: real,
    handBrake: bool,
    reverse: bool)

  const NeutralControl: VehicleControl := VehicleControl(0.0, 0.0, 0.0, false, false)

  /** FWalkerControl: the points, their time budgets and the reset flag. */
  datatype WalkerControl = WalkerControl(points: seq<Vector3>, times: seq<real>, reset: bool)

  /**
   * FSingleAgentControl as its users read it: the walker controller reads
   * `WalkerControl`, the vehicle controller reads `Points` and `Times`.
   */
  datatype SingleAgentControl = SingleAgentControl(
    walkerControl: WalkerControl,
    points: seq<Vector3>,
    times: seq<real>)
}
