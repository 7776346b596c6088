/** The radial layout: its configuration, the sector table built by the
    constructor, and the mapping from a point to a sector index. Angles are
    reals; `atan2` is supplied by the caller as an arbitrary function. */
module Layout {

  /** M_PI, as a real number. */
  const Pi: real := 3.141592653589793
  const TwoPi: real := 2.0 * Pi

  datatype LayoutConfig = LayoutConfig(sectors: int, centerX: real, centerY: real, angleOffsetRad: real)

  /** The member initialisers of RadialLayoutConfig. */
  const DefaultConfig: LayoutConfig := LayoutConfig(8, 0.5, 0.5, 0.0)

  /** The null QChar. */
  const NullChar: char := 0 as char

  /** One selectable key: a literal character, a named action, or neither. */
  datatype KeyOption = KeyOption(name: string, ch: char, action: string) {
    predicate IsAction() { |action| > 0 }
  }

  /** A sector: a label and an ordered key list of any length. */
  datatype Sector = Sector(name: string, keys: seq<KeyOption>)

  /** A default-constructed Sector, as QVector::resize appends them. */
  const EmptySector: Sector := Sector("", [])

  /** The labels and seed characters of the eight built-in sectors, in order. */
  const SeedLabels: seq<string> := ["ETA", "OIN", "SHR", "LUD", "GCM", "PFY", "WBV", "KJX"]
  const SeedChars: seq<char> := ['e', 't', 'a', 'o', 'i', 'n', 's', 'r']

  /** QVector::resize: truncate to n entries, or pad with default sectors. */
  function Resize(s: seq<Sector>, n: nat): (r: seq<Sector>)
    ensures |r| == n
    ensures forall i :: 0 <= i < n && i < |s| ==> r[i] == s[i]
    ensures forall i :: |s| <= i < n ==> r[i] == EmptySector
  {
    if n <= |s| then s[..n] else s + seq(n - |s|, _ => EmptySector)
  }

  /** The angle brought into [0, 2*pi) by whole turns. */
  function NormalizeAngle(a: real): (r: real)
    ensures 0.0 <= r < TwoPi
  {
    a - TwoPi * ((a / TwoPi).Floor as real)
  }

  /** Adding whole turns to reach [0, 2*pi) always lands on NormalizeAngle. */
  lemma NormalizeUnique(a: real, k: int)
    requires 0.0 <= a + TwoPi * (k as real) < TwoPi
    ensures NormalizeAngle(a) == a + TwoPi * (k as real)
  {
    assert -(k as real) <= a / TwoPi < 1.0 - (k as real);
    assert (a / TwoPi).Floor == -k;
  }

  /** floor(angle / (2*pi / n)), clamped into [0, n-1]. */
  function SectorForAngle(angle: real, n: int): (r: int)
    requires n > 0
    ensures 0 <= r < n
  {
    var raw := (angle / (TwoPi / n as real)).Floor;
    if raw < 0 then 0 else if raw >= n then n - 1 else raw
  }

  lemma ScaledBounds(angle: real, n: int)
    requires n > 0 && 0.0 <= angle < TwoPi
    ensures 0.0 <= angle / (TwoPi / n as real) < n as real
  {
    var w := TwoPi / n as real;
    assert w > 0.0;
    assert angle / w == angle * (n as real) / TwoPi;
    assert angle * (n as real) < TwoPi * (n as real);
  }

  /** On a normalised angle neither clamp fires: the sector is the plain floor,
      and the angle lies inside that sector's span. */
  lemma SectorSpan(angle: real, n: int)
    requires n > 0 && 0.0 <= angle < TwoPi
    ensures SectorForAngle(angle, n) == (angle / (TwoPi / n as real)).Floor
    ensures var w := TwoPi / n as real; var s := SectorForAngle(angle, n) as real;
            s * w <= angle < (s + 1.0) * w
  {
    ScaledBounds(angle, n);
    var w := TwoPi / n as real;
    var f := (angle / w).Floor;
    assert f as real <= angle / w < f as real + 1.0;
    assert angle / w * w == angle;
  }

  lemma FloorMonotone(p: real, q: real)
    requires p <= q
    ensures p.Floor <= q.Floor
  {
    assert p.Floor as real <= p;
    assert q < q.Floor as real + 1.0;
  }

  lemma DivideMonotone(a: real, b: real, w: real)
    requires a <= b && w > 0.0
    ensures a / w <= b / w
  {
    assert b / w - a / w == (b - a) / w;
    assert (b - a) / w >= 0.0;
  }

  /** The sector index never decreases as the angle grows. */
  lemma SectorMonotone(a: real, b: real, n: int)
    requires n > 0 && a <= b
    ensures SectorForAngle(a, n) <= SectorForAngle(b, n)
  {
    var w := TwoPi / n as real;
    DivideMonotone(a, b, w);
    FloorMonotone(a / w, b / w);
  }

  /** The three points of the layout test: atan2 values 0, -pi/2 and pi with
      eight sectors and no offset give sectors 0, 6 and 4. */
  lemma TestAngles()
    ensures SectorForAngle(NormalizeAngle(0.0 + 0.0), 8) == 0
    ensures SectorForAngle(NormalizeAngle(-Pi / 2.0 + 0.0), 8) == 6
    ensures SectorForAngle(NormalizeAngle(Pi + 0.0), 8) == 4
  {
    NormalizeUnique(0.0, 0);
    NormalizeUnique(-Pi / 2.0, 1);
    NormalizeUnique(Pi, 0);
    assert (3.0 * Pi / 2.0) / (TwoPi / 8.0) == 6.0;
    assert Pi / (TwoPi / 8.0) == 4.0;
  }

  class RadialLayout {
    const cfg: LayoutConfig
    var sectorList: seq<Sector>

    /** Fills the eight seed sectors, then resizes the list to cfg.sectors.
        seedKeys gives the key list each seed sector gets from its character. */
    constructor (cfg: LayoutConfig, seedKeys: char -> seq<KeyOption>)
      requires cfg.sectors >= 0
      ensures this.cfg == cfg
      ensures |sectorList| == cfg.sectors
      ensures forall i :: 0 <= i < cfg.sectors && i < 8 ==>
                sectorList[i] == Sector(SeedLabels[i], seedKeys(SeedChars[i]))
      ensures forall i :: 8 <= i < cfg.sectors ==> sectorList[i] == EmptySector
    {
      this.cfg := cfg;
      var seeded := [
        Sector("ETA", seedKeys('e')),
        Sector("OIN", seedKeys('t')),
        Sector("SHR", seedKeys('a')),
        Sector("LUD", seedKeys('o')),
        Sector("GCM", seedKeys('i')),
        Sector("PFY", seedKeys('n')),
        Sector("WBV", seedKeys('s')),
        Sector("KJX", seedKeys('r'))
      ];
      sectorList := Resize(seeded, cfg.sectors);
    }

    function Sectors(): (n: int)
      ensures n == cfg.sectors
    {
      cfg.sectors
    }

    function SectorList(): (r: seq<Sector>)
      reads this
      ensures r == sectorList
    {
      sectorList
    }

    /** The sector under (x, y): the angle from the centre plus the offset,
        normalised by whole turns, divided into cfg.sectors equal spans.
        Without a positive sector count the result is cfg.sectors - 1. */
    method AngleToSector(x: real, y: real, atan2: (real, real) -> real) returns (sector: int)
      ensures cfg.sectors > 0 ==> 0 <= sector < cfg.sectors
      ensures cfg.sectors > 0 ==>
                sector == SectorForAngle(NormalizeAngle(atan2(y - cfg.centerY, x - cfg.centerX) + cfg.angleOffsetRad), cfg.sectors)
      ensures cfg.sectors <= 0 ==> sector == cfg.sectors - 1
    {
      var dx := x - cfg.centerX;
      var dy := y - cfg.centerY;
      var angle := atan2(dy, dx);
      angle := angle + cfg.angleOffsetRad;
      ghost var start := angle;
      ghost var turns: int := 0;
      while angle < 0.0
        invariant angle == start + TwoPi * (turns as real)
        decreases if angle < 0.0 then (-angle / TwoPi).Floor + 1 else 0
      {
        angle := angle + TwoPi;
        turns := turns + 1;
      }
      while angle >= TwoPi
        invariant 0.0 <= angle
        invariant angle == start + TwoPi * (turns as real)
        decreases (angle / TwoPi).Floor
      {
        angle := angle - TwoPi;
        turns := turns - 1;
      }
      NormalizeUnique(start, turns);
      if cfg.sectors > 0 {
        var sectorAngle := TwoPi / cfg.sectors as real;
        sector := (angle / sectorAngle).Floor;
      } else {
        // The span 2*pi / sectors is infinite or negative here: the floor of
        // the non-negative angle over it is never positive, and clamps to 0.
        sector := 0;
      }
      if sector < 0 {
        sector := 0;
      }
      if sector >= cfg.sectors {
        sector := cfg.sectors - 1;
      }
    }
  }

  /** The layout test: eight sectors centred at (0.5, 0.5) without offset map
      east, north (screen up) and west to sectors 0, 6 and 4. */
  method TestPoints(atan2: (real, real) -> real) returns (east: int, north: int, west: int)
    requires atan2(0.0, 0.5) == 0.0 && atan2(-0.5, 0.0) == -Pi / 2.0 && atan2(0.0, -0.5) == Pi
    ensures east == 0 && north == 6 && west == 4
  {
    var layout := new RadialLayout(LayoutConfig(8, 0.5, 0.5, 0.0), _ => []);
    TestAngles();
    east := layout.AngleToSector(1.0, 0.5, atan2);
    north := layout.AngleToSector(0.5, 0.0, atan2);
    west := layout.AngleToSector(0.0, 0.5, atan2);
  }
}
