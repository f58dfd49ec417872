/** The closed sets of domain codes of the timing data model
    (kayaclock_utils/data/enums.py). Every enumeration carries the code it is
    read from in an input record, and a parser from that code back to the
    member. */
module Enums {
  import opened Wrappers

  // ---------------------------------------------------------------------------
  // Penalisation: an integer enumeration whose value is the severity in seconds
  // ---------------------------------------------------------------------------

  datatype Penalisation = GOOD | TOUCH | MISS {

    /** Penalty seconds this gate result adds to a run. */
    function Severity(): nat
    {
      match this
      case GOOD => 0
      case TOUCH => 2
      case MISS => 50
    }
  }

  /** The largest severity any gate result can carry. */
  const MaxSeverity: nat := 50

  /** Reads a penalisation from its integer value; only 0, 2 and 50 name a member. */
  function PenalisationFromValue(v: int): (r: Option<Penalisation>)
    ensures r.Some? <==> v in {0, 2, 50}
    ensures r.Some? ==> r.value.Severity() == v
  {
    if v == 0 then Some(GOOD)
    else if v == 2 then Some(TOUCH)
    else if v == 50 then Some(MISS)
    else None
  }

  /** Reading back the value of a member yields that member. */
  lemma PenalisationValueRoundTrip(p: Penalisation)
    ensures PenalisationFromValue(p.Severity()) == Some(p)
  {
  }

  /** Severities are bounded by MaxSeverity, which MISS alone attains. */
  lemma MissIsUniqueMaximum(p: Penalisation)
    ensures 0 <= p.Severity() <= MaxSeverity
    ensures p.Severity() == MaxSeverity <==> p == MISS
  {
  }

  // ---------------------------------------------------------------------------
  // Boat category
  // ---------------------------------------------------------------------------

  datatype BoatCategory = K1 | C1 | C2 | OTHER {

    function Code(): string
    {
      match this
      case K1 => "K1"
      case C1 => "C1"
      case C2 => "C2"
      case OTHER => "OTHER"
    }

    /** Number of paddlers, hence of registration numbers, the boat carries. */
    function Crew(): nat
    {
      if this == C2 then 2 else 1
    }
  }

  /** Reads a boat category from its code: the member with that code, if any. */
  function BoatCategoryFromCode(s: string): (r: Option<BoatCategory>)
    ensures r.Some? ==> r.value.Code() == s
    ensures r.None? ==> forall b: BoatCategory :: b.Code() != s
    ensures r.Some? <==> s in {"K1", "C1", "C2", "OTHER"}
  {
    if s == "K1" then Some(K1)
    else if s == "C1" then Some(C1)
    else if s == "C2" then Some(C2)
    else if s == "OTHER" then Some(BoatCategory.OTHER)
    else None
  }
  lemma BoatCategoryCodeRoundTrip(b: BoatCategory)
    ensures BoatCategoryFromCode(b.Code()) == Some(b)
  {
    match b
    case K1 =>
    case C1 =>
    case C2 =>
    case OTHER =>
  }


  /** C2 is the only boat for two people; every other category seats one. */
  lemma OnlyC2SeatsTwo(b: BoatCategory)
    ensures b.Crew() in {1, 2}
    ensures b.Crew() == 2 <==> b == C2
  {
  }

  // ---------------------------------------------------------------------------
  // Miss reason
  // ---------------------------------------------------------------------------

  datatype MissReason = A | B | C | D | E | F {

    function Code(): string
    {
      match this
      case A => "A"
      case B => "B"
      case C => "C"
      case D => "D"
      case E => "E"
      case F => "F"
    }
  }

  /** Reads a miss reason; exactly the six one-letter codes A to F name one. */
  function MissReasonFromCode(s: string): (r: Option<MissReason>)
    ensures r.Some? ==> r.value.Code() == s
    ensures r.None? ==> forall m: MissReason :: m.Code() != s
    ensures r.Some? <==> s in {"A", "B", "C", "D", "E", "F"}
  {
    if s == "A" then Some(A)
    else if s == "B" then Some(B)
    else if s == "C" then Some(C)
    else if s == "D" then Some(MissReason.D)
    else if s == "E" then Some(E)
    else if s == "F" then Some(F)
    else None
  }
  lemma MissReasonCodeRoundTrip(m: MissReason)
    ensures MissReasonFromCode(m.Code()) == Some(m)
  {
    match m
    case A =>
    case B =>
    case C =>
    case D =>
    case E =>
    case F =>
  }


  // ---------------------------------------------------------------------------
  // Categories that are only closed sets of codes
  // ---------------------------------------------------------------------------

  datatype AgeCategory = PZ | ZM | ZS | DM | DS | U23 | D | VM | V | VS {

    function Code(): string
    {
      match this
      case PZ => "PZ"
      case ZM => "ZM"
      case ZS => "ZS"
      case DM => "DM"
      case DS => "DS"
      case U23 => "U23"
      case D => "D"
      case VM => "VM"
      case V => "V"
      case VS => "VS"
    }
  }

  function AgeCategoryFromCode(s: string): (r: Option<AgeCategory>)
    ensures r.Some? ==> r.value.Code() == s
    ensures r.None? ==> forall a: AgeCategory :: a.Code() != s
  {
    if s == "PZ" then Some(PZ)
    else if s == "ZM" then Some(ZM)
    else if s == "ZS" then Some(ZS)
    else if s == "DM" then Some(DM)
    else if s == "DS" then Some(DS)
    else if s == "U23" then Some(U23)
    else if s == "D" then Some(AgeCategory.D)
    else if s == "VM" then Some(VM)
    else if s == "V" then Some(V)
    else if s == "VS" then Some(VS)
    else None
  }
  lemma AgeCategoryCodeRoundTrip(a: AgeCategory)
    ensures AgeCategoryFromCode(a.Code()) == Some(a)
  {
    match a
    case PZ =>
    case ZM =>
    case ZS =>
    case DM =>
    case DS =>
    case U23 =>
    case D =>
    case VM =>
    case V =>
    case VS =>
  }


  datatype GenderCategory = Man | Woman | Mixed | Other {

    function Code(): string
    {
      match this
      case Man => "M"
      case Woman => "Z"
      case Mixed => "X"
      case Other => "OTHER"
    }
  }

  function GenderCategoryFromCode(s: string): (r: Option<GenderCategory>)
    ensures r.Some? ==> r.value.Code() == s
    ensures r.None? ==> forall g: GenderCategory :: g.Code() != s
  {
    if s == "M" then Some(Man)
    else if s == "Z" then Some(Woman)
    else if s == "X" then Some(Mixed)
    else if s == "OTHER" then Some(Other)
    else None
  }
  lemma GenderCategoryCodeRoundTrip(g: GenderCategory)
    ensures GenderCategoryFromCode(g.Code()) == Some(g)
  {
    match g
    case Man =>
    case Woman =>
    case Mixed =>
    case Other =>
  }


  datatype PerformanceRating = Mistr | One | TwoPlus | Two | ThreePlus | Three | Unrated {

    function Code(): string
    {
      match this
      case Mistr => "M"
      case One => "1"
      case TwoPlus => "2+"
      case Two => "2"
      case ThreePlus => "3+"
      case Three => "3"
      case Unrated => "-"
    }
  }

  function PerformanceRatingFromCode(s: string): (r: Option<PerformanceRating>)
    ensures r.Some? ==> r.value.Code() == s
    ensures r.None? ==> forall p: PerformanceRating :: p.Code() != s
  {
    if s == "M" then Some(Mistr)
    else if s == "1" then Some(One)
    else if s == "2+" then Some(TwoPlus)
    else if s == "2" then Some(Two)
    else if s == "3+" then Some(ThreePlus)
    else if s == "3" then Some(Three)
    else if s == "-" then Some(Unrated)
    else None
  }
  lemma PerformanceRatingCodeRoundTrip(p: PerformanceRating)
    ensures PerformanceRatingFromCode(p.Code()) == Some(p)
  {
    match p
    case Mistr =>
    case One =>
    case TwoPlus =>
    case Two =>
    case ThreePlus =>
    case Three =>
    case Unrated =>
  }

}
