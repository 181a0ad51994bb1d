/**
 * The legal-rate warning of the calculator: an APR is compared with the
 * ceilings of three Taiwanese statutes (Pawnshop Act art. 11: 30%, Civil
 * Code art. 205: 16%, Banking Act art. 47-1: 15%), every comparison strict.
 */
module Legal {

  datatype Law = PawnshopActArt11 | CivilCodeArt205 | BankingActArt47_1

  datatype WarningLevel = NoWarning | Medium | High | Critical

  /** The warning text: none, or "the rate exceeds the ceiling of `law`". */
  datatype Message = NoMessage | ExceedsCap(law: Law)

  datatype Classification = Classification(level: WarningLevel, message: Message, violatedLaws: seq<Law>)

  /** Each statute's interest ceiling, in percent a year. */
  function CapPercent(law: Law): real
  {
    match law
    case PawnshopActArt11 => 30.0
    case CivilCodeArt205 => 16.0
    case BankingActArt47_1 => 15.0
  }

  /** The statutes in the order the warnings list them: highest ceiling first. */
  const Statutes: seq<Law> := [PawnshopActArt11, CivilCodeArt205, BankingActArt47_1]

  /** The laws of `laws`, in their order, whose ceiling `apr` exceeds. */
  function Exceeded(apr: real, laws: seq<Law>): (r: seq<Law>)
    ensures forall law :: law in r <==> law in laws && apr > CapPercent(law)
    ensures |r| <= |laws|
  {
    if laws == [] then []
    else (if apr > CapPercent(laws[0]) then [laws[0]] else []) + Exceeded(apr, laws[1..])
  }

  function ViolatedLaws(apr: real): seq<Law>
  {
    Exceeded(apr, Statutes)
  }

  /** One warning level per statute exceeded. */
  function LevelFor(count: nat): WarningLevel
  {
    if count == 0 then NoWarning else if count == 1 then Medium else if count == 2 then High else Critical
  }

  /**
   * The reference classification: the statutes whose ceiling the APR exceeds,
   * a level by how many they are, and a message naming the highest of them.
   */
  function Reference(apr: real): Classification
  {
    var laws := ViolatedLaws(apr);
    Classification(LevelFor(|laws|), if laws == [] then NoMessage else ExceedsCap(laws[0]), laws)
  }

  /** The statutes the APR breaches, band by band. */
  lemma ViolatedLawsByBand(apr: real)
    ensures apr > 30.0 ==> ViolatedLaws(apr) == [PawnshopActArt11, CivilCodeArt205, BankingActArt47_1]
    ensures 16.0 < apr <= 30.0 ==> ViolatedLaws(apr) == [CivilCodeArt205, BankingActArt47_1]
    ensures 15.0 < apr <= 16.0 ==> ViolatedLaws(apr) == [BankingActArt47_1]
    ensures apr <= 15.0 ==> ViolatedLaws(apr) == []
  {
    var s := Statutes;
    assert s[1..] == [CivilCodeArt205, BankingActArt47_1];
    assert s[1..][1..] == [BankingActArt47_1];
    assert s[1..][1..][1..] == [];
    assert Exceeded(apr, s[1..][1..][1..]) == [];
    assert Exceeded(apr, s[1..][1..]) == (if apr > 15.0 then [BankingActArt47_1] else []);
    assert Exceeded(apr, s[1..]) == (if apr > 16.0 then [CivilCodeArt205] else []) + Exceeded(apr, s[1..][1..]);
  }

  /**
   * The threshold chain of `calculateAPR`: the first band the APR falls in
   * fixes the message, the level and the list, to which the Banking Act is
   * pushed in the Civil Code band.
   */
  method Classify(apr: real) returns (c: Classification)
    ensures c == Reference(apr)
    ensures apr > 30.0 <==> c.level == Critical
    ensures 16.0 < apr <= 30.0 <==> c.level == High
    ensures 15.0 < apr <= 16.0 <==> c.level == Medium
    ensures apr <= 15.0 <==> c.level == NoWarning && c.message == NoMessage && c.violatedLaws == []
  {
    var warningMessage := NoMessage;
    var warningLevel := NoWarning;
    var violatedLaws: seq<Law> := [];
    if apr > 30.0 {
      warningMessage := ExceedsCap(PawnshopActArt11);
      warningLevel := Critical;
      violatedLaws := [PawnshopActArt11, CivilCodeArt205, BankingActArt47_1];
    } else if apr > 16.0 {
      warningMessage := ExceedsCap(CivilCodeArt205);
      warningLevel := High;
      violatedLaws := [CivilCodeArt205];
      if apr > 15.0 {
        violatedLaws := violatedLaws + [BankingActArt47_1];
      }
    } else if apr > 15.0 {
      warningMessage := ExceedsCap(BankingActArt47_1);
      warningLevel := Medium;
      violatedLaws := [BankingActArt47_1];
    }
    c := Classification(warningLevel, warningMessage, violatedLaws);
    ViolatedLawsByBand(apr);
  }

  /** A higher APR breaches every statute a lower one does, and warns at least as loudly. */
  lemma ClassificationMonotone(lo: real, hi: real)
    requires lo <= hi
    ensures forall law :: law in ViolatedLaws(lo) ==> law in ViolatedLaws(hi)
    ensures |ViolatedLaws(lo)| <= |ViolatedLaws(hi)|
  {
    ViolatedLawsByBand(lo);
    ViolatedLawsByBand(hi);
  }
}
