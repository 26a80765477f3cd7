/**
 * The VPS configurator: a four-field resource configuration changed by
 * minus/plus buttons that clamp each field to its slider's range, and by the
 * sliders themselves.
 */
module VpsConfigurator {
  import opened Common

  datatype Config = Config(cpu: int, ram: int, storage: int, bandwidth: int)

  /** The configuration the page starts with. */
  const Initial: Config := Config(2, 4, 80, 4)

  datatype Resource = Cpu | Ram | Storage | Bandwidth

  /** The slider's `min` for a resource. */
  function Low(r: Resource): int {
    match r
    case Cpu => 1
    case Ram => 1
    case Storage => 20
    case Bandwidth => 1
  }

  /** The slider's `max` for a resource. */
  function High(r: Resource): int {
    match r
    case Cpu => 16
    case Ram => 64
    case Storage => 1000
    case Bandwidth => 32
  }

  /** The amount one button press moves a resource (the storage slider's `step`). */
  function Step(r: Resource): int {
    if r == Storage then 20 else 1
  }

  function Get(c: Config, r: Resource): int {
    match r
    case Cpu => c.cpu
    case Ram => c.ram
    case Storage => c.storage
    case Bandwidth => c.bandwidth
  }

  function Set(c: Config, r: Resource, v: int): (c': Config)
    ensures Get(c', r) == v
    ensures forall o :: o != r ==> Get(c', o) == Get(c, o)
  {
    match r
    case Cpu => c.(cpu := v)
    case Ram => c.(ram := v)
    case Storage => c.(storage := v)
    case Bandwidth => c.(bandwidth := v)
  }

  /** Every resource within its slider's range, and storage a multiple of 20. */
  predicate Valid(c: Config) {
    (forall r :: Low(r) <= Get(c, r) <= High(r)) && c.storage % 20 == 0
  }

  /** The minus button: `Math.max(low, value - step)`. */
  function Decrease(c: Config, r: Resource): (c': Config)
    ensures Get(c', r) >= Low(r)
    ensures Get(c', r) <= Get(c, r) || Get(c, r) < Low(r)
    ensures Get(c', r) == Get(c, r) - Step(r) || Get(c', r) == Low(r)
    ensures Get(c', r) == Max(Low(r), Get(c, r) - Step(r))
    ensures forall o :: o != r ==> Get(c', o) == Get(c, o)
  {
    Set(c, r, if Get(c, r) - Step(r) >= Low(r) then Get(c, r) - Step(r) else Low(r))
  }

  /** The plus button: `Math.min(high, value + step)`. */
  function Increase(c: Config, r: Resource): (c': Config)
    ensures Get(c', r) <= High(r)
    ensures Get(c', r) >= Get(c, r) || Get(c, r) > High(r)
    ensures Get(c', r) == Get(c, r) + Step(r) || Get(c', r) == High(r)
    ensures Get(c', r) == Min(High(r), Get(c, r) + Step(r))
    ensures forall o :: o != r ==> Get(c', o) == Get(c, o)
  {
    Set(c, r, if Get(c, r) + Step(r) <= High(r) then Get(c, r) + Step(r) else High(r))
  }

  /** A value the range input can hand to its `onChange`: within its bounds and on its step. */
  predicate SliderValue(r: Resource, v: int) {
    Low(r) <= v <= High(r) && (r == Storage ==> v % 20 == 0)
  }

  /** Dragging a slider sets its resource to the slider's value. */
  function Slide(c: Config, r: Resource, v: int): (c': Config)
    requires SliderValue(r, v)
    ensures Valid(c) ==> Valid(c')
    ensures Get(c', r) == v
  {
    Set(c, r, v)
  }

  /** The page starts in range. */
  lemma InitialValid()
    ensures Valid(Initial)
  {
  }

  /** Both buttons keep every resource in range and storage on its 20 GB grid. */
  lemma ButtonsKeepValid(c: Config, r: Resource)
    requires Valid(c)
    ensures Valid(Decrease(c, r)) && Valid(Increase(c, r))
  {
  }

  /** Away from the bounds, minus undoes plus and plus undoes minus. */
  lemma ButtonsInverse(c: Config, r: Resource)
    requires Low(r) <= Get(c, r) && Get(c, r) + Step(r) <= High(r)
    ensures Decrease(Increase(c, r), r) == c
  {
    var c' := Increase(c, r);
    assert Get(Decrease(c', r), r) == Get(c, r);
    forall o ensures Get(Decrease(c', r), o) == Get(c, o) {}
  }

  /** Pressing a button at its bound changes nothing. */
  lemma ButtonsIdleAtBounds(c: Config, r: Resource)
    ensures Get(c, r) == Low(r) ==> Decrease(c, r) == c
    ensures Get(c, r) == High(r) ==> Increase(c, r) == c
  {
  }
}
