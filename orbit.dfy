/** The per-name orbit rule of the solar-system scene: where a body with a
    given name, orbital radius and speed sits at elapsed time t. */
module Orbit {
  import opened Geometry

  /** The eight names with an orbit of their own; every other name gets the circle. */
  const PlanetNames: set<string> :=
    {"Osmosis", "Celestia", "Mantra", "Sei", "Injective", "THORChain", "Secret", "Akash"}

  /** The case labels of the orbit switch, and its default. */
  datatype Path =
    | OsmosisPath | CelestiaPath | MantraPath | SeiPath
    | InjectivePath | ThorchainPath | SecretPath | AkashPath
    | CirclePath

  /** Which case of the switch a name selects. */
  function PathOf(name: string): (k: Path)
    ensures k == CirclePath <==> name !in PlanetNames
  {
    if name == "Osmosis" then OsmosisPath
    else if name == "Celestia" then CelestiaPath
    else if name == "Mantra" then MantraPath
    else if name == "Sei" then SeiPath
    else if name == "Injective" then InjectivePath
    else if name == "THORChain" then ThorchainPath
    else if name == "Secret" then SecretPath
    else if name == "Akash" then AkashPath
    else CirclePath
  }

  /** The body of each case of the switch, as written. */
  function PathPos(tr: Trig, k: Path, radius: real, speed: real, t: real): Vec3 {
    match k
    case OsmosisPath =>
      Vec3(radius * tr.Cos(speed * t), 0.0, (radius * 0.8) * tr.Sin(speed * t))
    case CelestiaPath =>
      Vec3((radius * 1.1) * tr.Cos(speed * 0.9 * t), 0.0, (radius * 0.7) * tr.Sin(speed * 0.9 * t))
    case MantraPath =>
      Vec3(radius * tr.Cos(speed * 1.3 * t), 0.2 * radius * tr.Sin(speed * 0.6 * t),
           (radius * 0.7) * tr.Sin(speed * 1.3 * t))
    case SeiPath =>
      Vec3(radius * tr.Cos(speed * t), 0.2 * radius * tr.Cos(speed * t), radius * tr.Sin(speed * t))
    case InjectivePath =>
      Vec3((radius * 0.8) * tr.Cos(speed * 1.1 * t), 0.0, (radius * 1.2) * tr.Sin(speed * 1.1 * t))
    case ThorchainPath =>
      Vec3((radius * 1.2) * tr.Cos(speed * 0.8 * t), 0.15 * radius * tr.Sin(speed * 0.5 * t),
           (radius * 0.8) * tr.Sin(speed * 0.8 * t))
    case SecretPath =>
      Vec3((radius * 1.1) * tr.Cos(speed * 0.9 * t), 0.0, (radius * 0.9) * tr.Sin(speed * 0.9 * t))
    case AkashPath =>
      Vec3(radius * tr.Cos(speed * 1.2 * t), 0.15 * radius * tr.Cos(speed * 0.6 * t),
           (radius * 0.8) * tr.Sin(speed * 1.2 * t))
    case CirclePath =>
      Vec3(radius * tr.Cos(speed * t), 0.0, radius * tr.Sin(speed * t))
  }

  /** The angle each case drives x and z with. */
  function Angle(k: Path, speed: real, t: real): real {
    match k
    case OsmosisPath => speed * t
    case CelestiaPath => speed * 0.9 * t
    case MantraPath => speed * 1.3 * t
    case SeiPath => speed * t
    case InjectivePath => speed * 1.1 * t
    case ThorchainPath => speed * 0.8 * t
    case SecretPath => speed * 0.9 * t
    case AkashPath => speed * 1.2 * t
    case CirclePath => speed * t
  }
  /** The x semi-axis of each case. */
  function XAxis(k: Path, radius: real): real {
    match k
    case OsmosisPath => radius
    case CelestiaPath => radius * 1.1
    case MantraPath => radius
    case SeiPath => radius
    case InjectivePath => radius * 0.8
    case ThorchainPath => radius * 1.2
    case SecretPath => radius * 1.1
    case AkashPath => radius
    case CirclePath => radius
  }
  /** The z semi-axis of each case. */
  function ZAxis(k: Path, radius: real): real {
    match k
    case OsmosisPath => radius * 0.8
    case CelestiaPath => radius * 0.7
    case MantraPath => radius * 0.7
    case SeiPath => radius
    case InjectivePath => radius * 1.2
    case ThorchainPath => radius * 0.8
    case SecretPath => radius * 0.9
    case AkashPath => radius * 0.8
    case CirclePath => radius
  }
  /** The orbit switch of the desktop scene: the case the name selects. */
  function OrbitPos(tr: Trig, name: string, radius: real, speed: real, t: real): Vec3 {
    PathPos(tr, PathOf(name), radius, speed, t)
  }

  /** The orbit switch of the mobile scene, transcribed separately. */
  function OrbitPosMobile(tr: Trig, name: string, radius: real, speed: real, t: real): Vec3 {
    match name
    case "Osmosis" =>
      Vec3(radius * tr.Cos(speed * t), 0.0, (radius * 0.8) * tr.Sin(speed * t))
    case "Celestia" =>
      Vec3((radius * 1.1) * tr.Cos(speed * 0.9 * t), 0.0, (radius * 0.7) * tr.Sin(speed * 0.9 * t))
    case "Mantra" =>
      Vec3(radius * tr.Cos(speed * 1.3 * t), 0.2 * radius * tr.Sin(speed * 0.6 * t),
           (radius * 0.7) * tr.Sin(speed * 1.3 * t))
    case "Sei" =>
      Vec3(radius * tr.Cos(speed * t), 0.2 * radius * tr.Cos(speed * t), radius * tr.Sin(speed * t))
    case "Injective" =>
      Vec3((radius * 0.8) * tr.Cos(speed * 1.1 * t), 0.0, (radius * 1.2) * tr.Sin(speed * 1.1 * t))
    case "THORChain" =>
      Vec3((radius * 1.2) * tr.Cos(speed * 0.8 * t), 0.15 * radius * tr.Sin(speed * 0.5 * t),
           (radius * 0.8) * tr.Sin(speed * 0.8 * t))
    case "Secret" =>
      Vec3((radius * 1.1) * tr.Cos(speed * 0.9 * t), 0.0, (radius * 0.9) * tr.Sin(speed * 0.9 * t))
    case "Akash" =>
      Vec3(radius * tr.Cos(speed * 1.2 * t), 0.15 * radius * tr.Cos(speed * 0.6 * t),
           (radius * 0.8) * tr.Sin(speed * 1.2 * t))
    case _ =>
      Vec3(radius * tr.Cos(speed * t), 0.0, radius * tr.Sin(speed * t))
  }

  /** The mobile scene moves every body exactly as the desktop scene does. */
  lemma MobileOrbitMatchesDesktop(tr: Trig, name: string, radius: real, speed: real, t: real)
    ensures OrbitPosMobile(tr, name, radius, speed, t) == OrbitPos(tr, name, radius, speed, t)
  {
  }

  /** The smaller of the two multipliers of radius on the horizontal axes. */
  function InnerScale(k: Path): (m: real)
    ensures 0.7 <= m <= 1.0
  {
    match k
    case OsmosisPath => 0.8
    case CelestiaPath => 0.7
    case MantraPath => 0.7
    case SeiPath => 1.0
    case InjectivePath => 0.8
    case ThorchainPath => 0.8
    case SecretPath => 0.9
    case AkashPath => 0.8
    case CirclePath => 1.0
  }

  /** The larger of the two multipliers of radius on the horizontal axes. */
  function OuterScale(k: Path): (m: real)
    ensures 1.0 <= m <= 1.2
  {
    match k
    case OsmosisPath => 1.0
    case CelestiaPath => 1.1
    case MantraPath => 1.0
    case SeiPath => 1.0
    case InjectivePath => 1.2
    case ThorchainPath => 1.2
    case SecretPath => 1.1
    case AkashPath => 1.0
    case CirclePath => 1.0
  }

  /** The amplitude of the vertical wave, as a multiple of radius. */
  function Tilt(k: Path): (h: real)
    ensures 0.0 <= h <= 0.2
    ensures h > 0.0 <==> k in {MantraPath, SeiPath, ThorchainPath, AkashPath}
  {
    match k
    case MantraPath => 0.2
    case SeiPath => 0.2
    case ThorchainPath => 0.15
    case AkashPath => 0.15
    case _ => 0.0
  }

  /** Every body stays in the horizontal ring between radii InnerScale * radius
      and OuterScale * radius, and its vertical offset never exceeds
      Tilt * |radius|: x and z are driven by one shared angle, y by a wave of
      bounded amplitude or not at all. */
  lemma PathBounds(tr: Trig, k: Path, radius: real, speed: real, t: real)
    requires tr.Valid()
    ensures var p := PathPos(tr, k, radius, speed, t);
      && Sq(InnerScale(k) * radius) <= Sq(p.x) + Sq(p.z) <= Sq(OuterScale(k) * radius)
      && Abs(p.y) <= Tilt(k) * Abs(radius)
  {
    var m, n, h := InnerScale(k), OuterScale(k), Tilt(k);
    match k
    case OsmosisPath => OsmosisBounds(tr, radius, speed, t, m, n, h);
    case CelestiaPath => CelestiaBounds(tr, radius, speed, t, m, n, h);
    case MantraPath => MantraBounds(tr, radius, speed, t, m, n, h);
    case SeiPath => SeiBounds(tr, radius, speed, t, m, n, h);
    case InjectivePath => InjectiveBounds(tr, radius, speed, t, m, n, h);
    case ThorchainPath => ThorchainBounds(tr, radius, speed, t, m, n, h);
    case SecretPath => SecretBounds(tr, radius, speed, t, m, n, h);
    case AkashPath => AkashBounds(tr, radius, speed, t, m, n, h);
    case CirclePath => CircleBounds(tr, radius, speed, t, m, n, h);
  }

  lemma OsmosisBounds(tr: Trig, radius: real, speed: real, t: real, m: real, n: real, h: real)
    requires tr.Valid()
    requires m == 0.8 && n == 1.0 && h == 0.0
    ensures var p := PathPos(tr, OsmosisPath, radius, speed, t);
      && Sq(m * radius) <= Sq(p.x) + Sq(p.z) <= Sq(n * radius)
      && Abs(p.y) <= h * Abs(radius)
  {
    EllipseCase(tr, radius, 1.0, 0.8, speed * t, m, n);
    ScaleEq(h, 0.0, Abs(radius));
  }

  lemma CelestiaBounds(tr: Trig, radius: real, speed: real, t: real, m: real, n: real, h: real)
    requires tr.Valid()
    requires m == 0.7 && n == 1.1 && h == 0.0
    ensures var p := PathPos(tr, CelestiaPath, radius, speed, t);
      && Sq(m * radius) <= Sq(p.x) + Sq(p.z) <= Sq(n * radius)
      && Abs(p.y) <= h * Abs(radius)
  {
    EllipseCase(tr, radius, 1.1, 0.7, speed * 0.9 * t, m, n);
    ScaleEq(h, 0.0, Abs(radius));
  }

  lemma MantraBounds(tr: Trig, radius: real, speed: real, t: real, m: real, n: real, h: real)
    requires tr.Valid()
    requires m == 0.7 && n == 1.0 && h == 0.2
    ensures var p := PathPos(tr, MantraPath, radius, speed, t);
      && Sq(m * radius) <= Sq(p.x) + Sq(p.z) <= Sq(n * radius)
      && Abs(p.y) <= h * Abs(radius)
  {
    EllipseCase(tr, radius, 1.0, 0.7, speed * 1.3 * t, m, n);
    WaveCase(tr, 0.2, radius, tr.Sin(speed * 0.6 * t), speed * 0.6 * t, h);
  }

  lemma SeiBounds(tr: Trig, radius: real, speed: real, t: real, m: real, n: real, h: real)
    requires tr.Valid()
    requires m == 1.0 && n == 1.0 && h == 0.2
    ensures var p := PathPos(tr, SeiPath, radius, speed, t);
      && Sq(m * radius) <= Sq(p.x) + Sq(p.z) <= Sq(n * radius)
      && Abs(p.y) <= h * Abs(radius)
  {
    EllipseCase(tr, radius, 1.0, 1.0, speed * t, m, n);
    WaveCase(tr, 0.2, radius, tr.Cos(speed * t), speed * t, h);
  }

  lemma InjectiveBounds(tr: Trig, radius: real, speed: real, t: real, m: real, n: real, h: real)
    requires tr.Valid()
    requires m == 0.8 && n == 1.2 && h == 0.0
    ensures var p := PathPos(tr, InjectivePath, radius, speed, t);
      && Sq(m * radius) <= Sq(p.x) + Sq(p.z) <= Sq(n * radius)
      && Abs(p.y) <= h * Abs(radius)
  {
    EllipseCase(tr, radius, 0.8, 1.2, speed * 1.1 * t, m, n);
    ScaleEq(h, 0.0, Abs(radius));
  }

  lemma ThorchainBounds(tr: Trig, radius: real, speed: real, t: real, m: real, n: real, h: real)
    requires tr.Valid()
    requires m == 0.8 && n == 1.2 && h == 0.15
    ensures var p := PathPos(tr, ThorchainPath, radius, speed, t);
      && Sq(m * radius) <= Sq(p.x) + Sq(p.z) <= Sq(n * radius)
      && Abs(p.y) <= h * Abs(radius)
  {
    EllipseCase(tr, radius, 1.2, 0.8, speed * 0.8 * t, m, n);
    WaveCase(tr, 0.15, radius, tr.Sin(speed * 0.5 * t), speed * 0.5 * t, h);
  }

  lemma SecretBounds(tr: Trig, radius: real, speed: real, t: real, m: real, n: real, h: real)
    requires tr.Valid()
    requires m == 0.9 && n == 1.1 && h == 0.0
    ensures var p := PathPos(tr, SecretPath, radius, speed, t);
      && Sq(m * radius) <= Sq(p.x) + Sq(p.z) <= Sq(n * radius)
      && Abs(p.y) <= h * Abs(radius)
  {
    EllipseCase(tr, radius, 1.1, 0.9, speed * 0.9 * t, m, n);
    ScaleEq(h, 0.0, Abs(radius));
  }

  lemma AkashBounds(tr: Trig, radius: real, speed: real, t: real, m: real, n: real, h: real)
    requires tr.Valid()
    requires m == 0.8 && n == 1.0 && h == 0.15
    ensures var p := PathPos(tr, AkashPath, radius, speed, t);
      && Sq(m * radius) <= Sq(p.x) + Sq(p.z) <= Sq(n * radius)
      && Abs(p.y) <= h * Abs(radius)
  {
    EllipseCase(tr, radius, 1.0, 0.8, speed * 1.2 * t, m, n);
    WaveCase(tr, 0.15, radius, tr.Cos(speed * 0.6 * t), speed * 0.6 * t, h);
  }

  lemma CircleBounds(tr: Trig, radius: real, speed: real, t: real, m: real, n: real, h: real)
    requires tr.Valid()
    requires m == 1.0 && n == 1.0 && h == 0.0
    ensures var p := PathPos(tr, CirclePath, radius, speed, t);
      && Sq(m * radius) <= Sq(p.x) + Sq(p.z) <= Sq(n * radius)
      && Abs(p.y) <= h * Abs(radius)
  {
    EllipseCase(tr, radius, 1.0, 1.0, speed * t, m, n);
    ScaleEq(h, 0.0, Abs(radius));
  }

  /** In every case x and z are driven by one shared angle: the body is at
      (X cos a, y, Z sin a) for the case's semi-axes X, Z and angle a. */
  lemma PathSharesAngle(tr: Trig, k: Path, r: real, s: real, t: real)
    ensures PathPos(tr, k, r, s, t).x == XAxis(k, r) * tr.Cos(Angle(k, s, t))
    ensures PathPos(tr, k, r, s, t).z == ZAxis(k, r) * tr.Sin(Angle(k, s, t))
  {
    match k
    case OsmosisPath => OsmosisAngle(tr, k, r, s, t);
    case CelestiaPath => CelestiaAngle(tr, k, r, s, t);
    case MantraPath => MantraAngle(tr, k, r, s, t);
    case SeiPath => SeiAngle(tr, k, r, s, t);
    case InjectivePath => InjectiveAngle(tr, k, r, s, t);
    case ThorchainPath => ThorchainAngle(tr, k, r, s, t);
    case SecretPath => SecretAngle(tr, k, r, s, t);
    case AkashPath => AkashAngle(tr, k, r, s, t);
    case CirclePath => CircleAngle(tr, k, r, s, t);
  }
  lemma OsmosisAngle(tr: Trig, k: Path, r: real, s: real, t: real)
    requires k == OsmosisPath
    ensures PathPos(tr, k, r, s, t).x == XAxis(k, r) * tr.Cos(Angle(k, s, t))
    ensures PathPos(tr, k, r, s, t).z == ZAxis(k, r) * tr.Sin(Angle(k, s, t))
  {
  }
  lemma CelestiaAngle(tr: Trig, k: Path, r: real, s: real, t: real)
    requires k == CelestiaPath
    ensures PathPos(tr, k, r, s, t).x == XAxis(k, r) * tr.Cos(Angle(k, s, t))
    ensures PathPos(tr, k, r, s, t).z == ZAxis(k, r) * tr.Sin(Angle(k, s, t))
  {
  }
  lemma MantraAngle(tr: Trig, k: Path, r: real, s: real, t: real)
    requires k == MantraPath
    ensures PathPos(tr, k, r, s, t).x == XAxis(k, r) * tr.Cos(Angle(k, s, t))
    ensures PathPos(tr, k, r, s, t).z == ZAxis(k, r) * tr.Sin(Angle(k, s, t))
  {
  }
  lemma SeiAngle(tr: Trig, k: Path, r: real, s: real, t: real)
    requires k == SeiPath
    ensures PathPos(tr, k, r, s, t).x == XAxis(k, r) * tr.Cos(Angle(k, s, t))
    ensures PathPos(tr, k, r, s, t).z == ZAxis(k, r) * tr.Sin(Angle(k, s, t))
  {
  }
  lemma InjectiveAngle(tr: Trig, k: Path, r: real, s: real, t: real)
    requires k == InjectivePath
    ensures PathPos(tr, k, r, s, t).x == XAxis(k, r) * tr.Cos(Angle(k, s, t))
    ensures PathPos(tr, k, r, s, t).z == ZAxis(k, r) * tr.Sin(Angle(k, s, t))
  {
  }
  lemma ThorchainAngle(tr: Trig, k: Path, r: real, s: real, t: real)
    requires k == ThorchainPath
    ensures PathPos(tr, k, r, s, t).x == XAxis(k, r) * tr.Cos(Angle(k, s, t))
    ensures PathPos(tr, k, r, s, t).z == ZAxis(k, r) * tr.Sin(Angle(k, s, t))
  {
  }
  lemma SecretAngle(tr: Trig, k: Path, r: real, s: real, t: real)
    requires k == SecretPath
    ensures PathPos(tr, k, r, s, t).x == XAxis(k, r) * tr.Cos(Angle(k, s, t))
    ensures PathPos(tr, k, r, s, t).z == ZAxis(k, r) * tr.Sin(Angle(k, s, t))
  {
  }
  lemma AkashAngle(tr: Trig, k: Path, r: real, s: real, t: real)
    requires k == AkashPath
    ensures PathPos(tr, k, r, s, t).x == XAxis(k, r) * tr.Cos(Angle(k, s, t))
    ensures PathPos(tr, k, r, s, t).z == ZAxis(k, r) * tr.Sin(Angle(k, s, t))
  {
  }
  lemma CircleAngle(tr: Trig, k: Path, r: real, s: real, t: real)
    requires k == CirclePath
    ensures PathPos(tr, k, r, s, t).x == XAxis(k, r) * tr.Cos(Angle(k, s, t))
    ensures PathPos(tr, k, r, s, t).z == ZAxis(k, r) * tr.Sin(Angle(k, s, t))
  {
  }

  /** Any name outside the table moves on the circle of the given radius in
      the horizontal plane. */
  lemma DefaultOrbitIsCircle(tr: Trig, name: string, radius: real, speed: real, t: real)
    requires tr.Valid()
    requires name !in PlanetNames
    ensures var p := OrbitPos(tr, name, radius, speed, t);
      p.y == 0.0 && Sq(p.x) + Sq(p.z) == Sq(radius)
  {
    CircleBounds(tr, radius, speed, t, 1.0, 1.0, 0.0);
    SquaredScaleEq(1.0, 1.0, radius);
  }

  /** One ellipse case of PathBounds, with its bounds named m and n. */
  lemma EllipseCase(tr: Trig, r: real, xs: real, zs: real, a: real, m: real, n: real)
    requires tr.Valid()
    requires xs > 0.0 && zs > 0.0
    requires m == Min(xs, zs) && n == Max(xs, zs)
    ensures Sq(m * r) <= Sq((r * xs) * tr.Cos(a)) + Sq((r * zs) * tr.Sin(a)) <= Sq(n * r)
  {
    EllipseBound(tr, r, xs, zs, a);
  }

  /** One wave case of PathBounds: |c * r * w| <= k * |r| for the wave w. */
  lemma WaveCase(tr: Trig, c: real, r: real, w: real, a: real, k: real)
    requires tr.Valid()
    requires c >= 0.0 && k == c
    requires w == tr.Cos(a) || w == tr.Sin(a)
    ensures Abs(c * r * w) <= k * Abs(r)
  {
    TrigBounds(tr, a);
    ScaledBound(c, r, w);
  }

  lemma ScaleEq(a: real, b: real, u: real)
    requires a == b
    ensures a * u == b * u
  {
  }

  lemma SquaredScaleEq(a: real, b: real, u: real)
    requires a == b
    ensures Sq(a * u) == Sq(b * u)
  {
  }

  /** On an ellipse with semi-axes r * xs and r * zs, traced with one
      shared angle, the squared horizontal distance from the centre lies
      between (min(xs, zs) * r)^2 and (max(xs, zs) * r)^2. */
  lemma EllipseBound(tr: Trig, r: real, xs: real, zs: real, a: real)
    requires tr.Valid()
    requires xs > 0.0 && zs > 0.0
    ensures Sq(Min(xs, zs) * r) <= Sq((r * xs) * tr.Cos(a)) + Sq((r * zs) * tr.Sin(a))
    ensures Sq((r * xs) * tr.Cos(a)) + Sq((r * zs) * tr.Sin(a)) <= Sq(Max(xs, zs) * r)
  {
    var m, n := Min(xs, zs), Max(xs, zs);
    var c, s := tr.Cos(a), tr.Sin(a);
    assert tr.OnUnitCircle(a);
    ScaledSquareBound(r, xs, m, n, c);
    ScaledSquareBound(r, zs, m, n, s);
    SquareOfProduct(m, r);
    SquareOfProduct(n, r);
    Collect(Sq(m) * Sq(r), Sq(c), Sq(s));
    Collect(Sq(n) * Sq(r), Sq(c), Sq(s));
  }

  /** Sq(m) Sq(r) Sq(w) <= Sq((r * k) * w) <= Sq(n) Sq(r) Sq(w) when 0 <= m <= k <= n. */
  lemma ScaledSquareBound(r: real, k: real, m: real, n: real, w: real)
    requires 0.0 <= m <= k <= n
    ensures Sq(m) * Sq(r) * Sq(w) <= Sq((r * k) * w) <= Sq(n) * Sq(r) * Sq(w)
  {
    SquareOfProduct(r * k, w);
    SquareOfProduct(r, k);
    SquareMonotone(m, k);
    SquareMonotone(k, n);
    SquareNonNegative(r);
    SquareNonNegative(w);
    SquareNonNegative(r * w);
    SquareOfProduct(r, w);
    MulMonotone(Sq(m), Sq(k), Sq(r) * Sq(w));
    MulMonotone(Sq(k), Sq(n), Sq(r) * Sq(w));
  }

  lemma MulMonotone(a: real, b: real, c: real)
    requires a <= b && c >= 0.0
    ensures a * c <= b * c
  {
  }

  lemma Collect(k: real, p: real, q: real)
    requires p + q == 1.0
    ensures k * p + k * q == k
  {
  }
}
