/** Element and atomic-group lookup tables: symbol parsing and printing,
    nuclear and ionic charges, valences, van der Waals radii and
    hydrogen-group classification. Each table is a partial map; a lookup
    outside it is the source's thrown error, here `None`. */
module Constants {
  import opened Wrappers

  /** The element type: the real elements the tables know, the pseudo-element
      `M`, the `dummy` placeholder and `unknown`. */
  datatype AtomT =
    H | He | Li | Be | B | C | N | O | F | Ne | Na | Mg | Al | Si | P | S | Cl | Ar | K | Ca | Sc | Ti | V | Cr | Mn | Fe | Co | Ni | Cu | Zn | Ga | Ge | As | Se | Br | Kr | Rb | Sr | Y | Zr | Nb | Mo | Tc | Ru | Rh | Pd | Ag | Cd | In | Sn | Sb | Te | I | Xe | W | M | Dummy | Unknown

  datatype AtomicGroup = CH | CH2 | CH3 | NH | NH2 | NH3 | OH | SH | UnknownGroup

  /** `parse_element_string`: an exact, case-sensitive lookup in the symbol
      table; any other string fails. Symbols have one or two characters. */
  function ParseElementString(s: string): (r: Option<AtomT>)
    ensures r.Some? ==> r.value != Dummy && r.value != Unknown
  {
    if |s| == 1 then ParseOneLetter(s[0])
    else if |s| == 2 then ParseTwoLetters(s[0], s[1])
    else None
  }

  function ParseOneLetter(c: char): Option<AtomT> {
    match c
    case 'H' => Some(H)
    case 'B' => Some(B)
    case 'C' => Some(C)
    case 'N' => Some(N)
    case 'O' => Some(O)
    case 'F' => Some(F)
    case 'P' => Some(P)
    case 'S' => Some(S)
    case 'K' => Some(K)
    case 'V' => Some(V)
    case 'Y' => Some(Y)
    case 'I' => Some(I)
    case 'W' => Some(W)
    case 'M' => Some(M)
    case _ => None
  }

  function ParseTwoLetters(c: char, d: char): Option<AtomT> {
    match c
    case 'H' => if d == 'e' then Some(He) else None
    case 'L' => if d == 'i' then Some(Li) else None
    case 'B' =>
      (match d
       case 'e' => Some(Be)
       case 'r' => Some(Br)
       case _ => None)
    case 'N' =>
      (match d
       case 'e' => Some(Ne)
       case 'a' => Some(Na)
       case 'i' => Some(Ni)
       case 'b' => Some(Nb)
       case _ => None)
    case 'M' =>
      (match d
       case 'g' => Some(Mg)
       case 'n' => Some(Mn)
       case 'o' => Some(Mo)
       case _ => None)
    case 'A' =>
      (match d
       case 'l' => Some(Al)
       case 'r' => Some(Ar)
       case 's' => Some(As)
       case 'g' => Some(Ag)
       case _ => None)
    case 'S' =>
      (match d
       case 'i' => Some(Si)
       case 'c' => Some(Sc)
       case 'e' => Some(Se)
       case 'r' => Some(Sr)
       case 'n' => Some(Sn)
       case 'b' => Some(Sb)
       case _ => None)
    case 'C' =>
      (match d
       case 'l' => Some(Cl)
       case 'a' => Some(Ca)
       case 'r' => Some(Cr)
       case 'o' => Some(Co)
       case 'u' => Some(Cu)
       case 'd' => Some(Cd)
       case _ => None)
    case 'T' =>
      (match d
       case 'i' => Some(Ti)
       case 'c' => Some(Tc)
       case 'e' => Some(Te)
       case _ => None)
    case 'F' => if d == 'e' then Some(Fe) else None
    case 'Z' =>
      (match d
       case 'n' => Some(Zn)
       case 'r' => Some(Zr)
       case _ => None)
    case 'G' =>
      (match d
       case 'a' => Some(Ga)
       case 'e' => Some(Ge)
       case _ => None)
    case 'K' => if d == 'r' then Some(Kr) else None
    case 'R' =>
      (match d
       case 'b' => Some(Rb)
       case 'u' => Some(Ru)
       case 'h' => Some(Rh)
       case _ => None)
    case 'P' => if d == 'd' then Some(Pd) else None
    case 'I' => if d == 'n' then Some(In) else None
    case 'X' => if d == 'e' then Some(Xe) else None
    case _ => None
  }

  /** `symbols::to_string(atom_t)` as written: every table element except
      Kr, plus "#" for the dummy; anything else throws. */
  function ToStringAsWritten(a: AtomT): Option<string> {
    match a
    case H => Some("H")
    case He => Some("He")
    case Li => Some("Li")
    case Be => Some("Be")
    case B => Some("B")
    case C => Some("C")
    case N => Some("N")
    case O => Some("O")
    case F => Some("F")
    case Ne => Some("Ne")
    case Na => Some("Na")
    case Mg => Some("Mg")
    case Al => Some("Al")
    case Si => Some("Si")
    case P => Some("P")
    case S => Some("S")
    case Cl => Some("Cl")
    case Ar => Some("Ar")
    case K => Some("K")
    case Ca => Some("Ca")
    case Sc => Some("Sc")
    case Ti => Some("Ti")
    case V => Some("V")
    case Cr => Some("Cr")
    case Mn => Some("Mn")
    case Fe => Some("Fe")
    case Co => Some("Co")
    case Ni => Some("Ni")
    case Cu => Some("Cu")
    case Zn => Some("Zn")
    case Ga => Some("Ga")
    case Ge => Some("Ge")
    case As => Some("As")
    case Se => Some("Se")
    case Br => Some("Br")
    case Rb => Some("Rb")
    case Sr => Some("Sr")
    case Y => Some("Y")
    case Zr => Some("Zr")
    case Nb => Some("Nb")
    case Mo => Some("Mo")
    case Tc => Some("Tc")
    case Ru => Some("Ru")
    case Rh => Some("Rh")
    case Pd => Some("Pd")
    case Ag => Some("Ag")
    case Cd => Some("Cd")
    case In => Some("In")
    case Sn => Some("Sn")
    case Sb => Some("Sb")
    case Te => Some("Te")
    case I => Some("I")
    case Xe => Some("Xe")
    case W => Some("W")
    case M => Some("M")
    case Dummy => Some("#")
    case _ => None
  }

  /** The corrected printer: the table's own symbol for each of its
      elements, "#" for the dummy. The rest of the model uses this one. */
  function ToString(a: AtomT): (r: Option<string>)
    ensures r.Some? ==> 1 <= |r.value| <= 2 && ' ' !in r.value && '\n' !in r.value && '\r' !in r.value
  {
    match a
    case H => Some("H")
    case He => Some("He")
    case Li => Some("Li")
    case Be => Some("Be")
    case B => Some("B")
    case C => Some("C")
    case N => Some("N")
    case O => Some("O")
    case F => Some("F")
    case Ne => Some("Ne")
    case Na => Some("Na")
    case Mg => Some("Mg")
    case Al => Some("Al")
    case Si => Some("Si")
    case P => Some("P")
    case S => Some("S")
    case Cl => Some("Cl")
    case Ar => Some("Ar")
    case K => Some("K")
    case Ca => Some("Ca")
    case Sc => Some("Sc")
    case Ti => Some("Ti")
    case V => Some("V")
    case Cr => Some("Cr")
    case Mn => Some("Mn")
    case Fe => Some("Fe")
    case Co => Some("Co")
    case Ni => Some("Ni")
    case Cu => Some("Cu")
    case Zn => Some("Zn")
    case Ga => Some("Ga")
    case Ge => Some("Ge")
    case As => Some("As")
    case Se => Some("Se")
    case Br => Some("Br")
    case Kr => Some("Kr")
    case Rb => Some("Rb")
    case Sr => Some("Sr")
    case Y => Some("Y")
    case Zr => Some("Zr")
    case Nb => Some("Nb")
    case Mo => Some("Mo")
    case Tc => Some("Tc")
    case Ru => Some("Ru")
    case Rh => Some("Rh")
    case Pd => Some("Pd")
    case Ag => Some("Ag")
    case Cd => Some("Cd")
    case In => Some("In")
    case Sn => Some("Sn")
    case Sb => Some("Sb")
    case Te => Some("Te")
    case I => Some("I")
    case Xe => Some("Xe")
    case W => Some("W")
    case M => Some("M")
    case Dummy => Some("#")
    case _ => None
  }

  /** Kr parses but does not print: the table and the printer disagree. */
  lemma KrDoesNotPrint()
    ensures ParseElementString("Kr") == Some(Kr)
    ensures ToStringAsWritten(Kr) == None
    ensures ToString(Kr) == Some("Kr")
  {
  }

  /** The corrected printer inverts the parser on the whole table. */
  lemma PrintParsed(s: string)
    requires ParseElementString(s).Some?
    ensures ToString(ParseElementString(s).value) == Some(s)
  {
    if |s| == 1 {
      assert s == [s[0]];
      OneLetterPrints(s[0]);
    } else {
      assert s == [s[0], s[1]];
      TwoLettersPrint(s[0], s[1]);
    }
  }

  lemma OneLetterPrints(c: char)
    requires ParseOneLetter(c).Some?
    ensures ToString(ParseOneLetter(c).value) == Some([c])
  {
  }

  lemma TwoLettersPrint(c: char, d: char)
    requires ParseTwoLetters(c, d).Some?
    ensures ToString(ParseTwoLetters(c, d).value) == Some([c, d])
  {
    if c in {'H', 'L', 'B', 'N'} {
      TwoLettersPrint1(c, d);
    } else if c in {'M', 'A'} {
      TwoLettersPrint2(c, d);
    } else if c in {'S'} {
      TwoLettersPrint3(c, d);
    } else if c in {'C'} {
      TwoLettersPrint4(c, d);
    } else if c in {'T'} {
      TwoLettersPrint5(c, d);
    } else if c in {'F', 'Z', 'G'} {
      TwoLettersPrint6(c, d);
    } else if c in {'K', 'R'} {
      TwoLettersPrint7(c, d);
    } else if c in {'P', 'I', 'X'} {
      TwoLettersPrint8(c, d);
    }
  }

  lemma TwoLettersPrint1(c: char, d: char)
    requires ParseTwoLetters(c, d).Some? && c in {'H', 'L', 'B', 'N'}
    ensures ToString(ParseTwoLetters(c, d).value) == Some([c, d])
  {
  }

  lemma TwoLettersPrint2(c: char, d: char)
    requires ParseTwoLetters(c, d).Some? && c in {'M', 'A'}
    ensures ToString(ParseTwoLetters(c, d).value) == Some([c, d])
  {
  }

  lemma TwoLettersPrint3(c: char, d: char)
    requires ParseTwoLetters(c, d).Some? && c in {'S'}
    ensures ToString(ParseTwoLetters(c, d).value) == Some([c, d])
  {
  }

  lemma TwoLettersPrint4(c: char, d: char)
    requires ParseTwoLetters(c, d).Some? && c in {'C'}
    ensures ToString(ParseTwoLetters(c, d).value) == Some([c, d])
  {
  }

  lemma TwoLettersPrint5(c: char, d: char)
    requires ParseTwoLetters(c, d).Some? && c in {'T'}
    ensures ToString(ParseTwoLetters(c, d).value) == Some([c, d])
  {
  }

  lemma TwoLettersPrint6(c: char, d: char)
    requires ParseTwoLetters(c, d).Some? && c in {'F', 'Z', 'G'}
    ensures ToString(ParseTwoLetters(c, d).value) == Some([c, d])
  {
  }

  lemma TwoLettersPrint7(c: char, d: char)
    requires ParseTwoLetters(c, d).Some? && c in {'K', 'R'}
    ensures ToString(ParseTwoLetters(c, d).value) == Some([c, d])
  {
  }

  lemma TwoLettersPrint8(c: char, d: char)
    requires ParseTwoLetters(c, d).Some? && c in {'P', 'I', 'X'}
    ensures ToString(ParseTwoLetters(c, d).value) == Some([c, d])
  {
  }




  /** ... and the parser inverts the printer on every printable element but
      the dummy, whose "#" is not a table symbol. */
  lemma ParsePrinted(a: AtomT)
    requires ToString(a).Some? && a != Dummy
    ensures ParseElementString(ToString(a).value) == Some(a)
  {
    if a in {H, He, Li, Be, B, C, N, O, F, Ne, Na, Mg, Al, Si} {
      ParsePrinted1(a);
    } else if a in {P, S, Cl, Ar, K, Ca, Sc, Ti, V, Cr, Mn, Fe, Co, Ni} {
      ParsePrinted2(a);
    } else if a in {Cu, Zn, Ga, Ge, As, Se, Br, Kr, Rb, Sr, Y, Zr, Nb, Mo} {
      ParsePrinted3(a);
    } else {
      ParsePrinted4(a);
    }
  }

  lemma ParsePrinted1(a: AtomT)
    requires a in {H, He, Li, Be, B, C, N, O, F, Ne, Na, Mg, Al, Si}
    ensures ToString(a).Some? && ParseElementString(ToString(a).value) == Some(a)
  {
    match a {
      case H =>
      case He =>
      case Li =>
      case Be =>
      case B =>
      case C =>
      case N =>
      case O =>
      case F =>
      case Ne =>
      case Na =>
      case Mg =>
      case Al =>
      case Si =>
      case _ =>
    }
  }

  lemma ParsePrinted2(a: AtomT)
    requires a in {P, S, Cl, Ar, K, Ca, Sc, Ti, V, Cr, Mn, Fe, Co, Ni}
    ensures ToString(a).Some? && ParseElementString(ToString(a).value) == Some(a)
  {
    match a {
      case P =>
      case S =>
      case Cl =>
      case Ar =>
      case K =>
      case Ca =>
      case Sc =>
      case Ti =>
      case V =>
      case Cr =>
      case Mn =>
      case Fe =>
      case Co =>
      case Ni =>
      case _ =>
    }
  }

  lemma ParsePrinted3(a: AtomT)
    requires a in {Cu, Zn, Ga, Ge, As, Se, Br, Kr, Rb, Sr, Y, Zr, Nb, Mo}
    ensures ToString(a).Some? && ParseElementString(ToString(a).value) == Some(a)
  {
    match a {
      case Cu =>
      case Zn =>
      case Ga =>
      case Ge =>
      case As =>
      case Se =>
      case Br =>
      case Kr =>
      case Rb =>
      case Sr =>
      case Y =>
      case Zr =>
      case Nb =>
      case Mo =>
      case _ =>
    }
  }

  lemma ParsePrinted4(a: AtomT)
    requires ToString(a).Some? && a != Dummy && a !in {H, He, Li, Be, B, C, N, O, F, Ne, Na, Mg, Al, Si, P, S, Cl, Ar, K, Ca, Sc, Ti, V, Cr, Mn, Fe, Co, Ni, Cu, Zn, Ga, Ge, As, Se, Br, Kr, Rb, Sr, Y, Zr, Nb, Mo}
    ensures ToString(a).Some? && ParseElementString(ToString(a).value) == Some(a)
  {
    match a {
      case Tc =>
      case Ru =>
      case Rh =>
      case Pd =>
      case Ag =>
      case Cd =>
      case In =>
      case Sn =>
      case Sb =>
      case Te =>
      case I =>
      case Xe =>
      case W =>
      case M =>
      case _ =>
    }
  }


  /** The corrected printer agrees with the written one wherever that one is defined. */
  lemma PrinterAgreement(a: AtomT)
    requires ToStringAsWritten(a).Some?
    ensures ToString(a) == ToStringAsWritten(a)
  {
  }

  /** `charge::nuclear::get_charge`: the atomic number for the listed
      elements, 0 for M and 1 for the dummy. */
  function NuclearCharge(a: AtomT): Option<nat> {
    match a
    case H => Some(1)
    case He => Some(2)
    case Li => Some(3)
    case Be => Some(4)
    case B => Some(5)
    case C => Some(6)
    case N => Some(7)
    case O => Some(8)
    case F => Some(9)
    case Ne => Some(10)
    case Na => Some(11)
    case Mg => Some(12)
    case Al => Some(13)
    case Si => Some(14)
    case P => Some(15)
    case S => Some(16)
    case Cl => Some(17)
    case Ar => Some(18)
    case K => Some(19)
    case Ca => Some(20)
    case Sc => Some(21)
    case Ti => Some(22)
    case V => Some(23)
    case Cr => Some(24)
    case Mn => Some(25)
    case Fe => Some(26)
    case Co => Some(27)
    case Ni => Some(28)
    case Cu => Some(29)
    case Zn => Some(30)
    case Ga => Some(31)
    case Ge => Some(32)
    case As => Some(33)
    case Se => Some(34)
    case Br => Some(35)
    case Kr => Some(36)
    case Rb => Some(37)
    case Sr => Some(38)
    case Y => Some(39)
    case Zr => Some(40)
    case Nb => Some(41)
    case Mo => Some(42)
    case Tc => Some(43)
    case Ru => Some(44)
    case Rh => Some(45)
    case Pd => Some(46)
    case Ag => Some(47)
    case Cd => Some(48)
    case In => Some(49)
    case Sn => Some(50)
    case Sb => Some(51)
    case Te => Some(52)
    case I => Some(53)
    case Xe => Some(54)
    case W => Some(74)
    case M => Some(0)
    case Dummy => Some(1)
    case Unknown => None
  }

  predicate IsRealElement(a: AtomT) { a != M && a != Dummy && a != Unknown }

  /** The element with a given atomic number, among the real elements. */
  function ElementOfCharge(z: nat): Option<AtomT> {
    match z
    case 1 => Some(H)
    case 2 => Some(He)
    case 3 => Some(Li)
    case 4 => Some(Be)
    case 5 => Some(B)
    case 6 => Some(C)
    case 7 => Some(N)
    case 8 => Some(O)
    case 9 => Some(F)
    case 10 => Some(Ne)
    case 11 => Some(Na)
    case 12 => Some(Mg)
    case 13 => Some(Al)
    case 14 => Some(Si)
    case 15 => Some(P)
    case 16 => Some(S)
    case 17 => Some(Cl)
    case 18 => Some(Ar)
    case 19 => Some(K)
    case 20 => Some(Ca)
    case 21 => Some(Sc)
    case 22 => Some(Ti)
    case 23 => Some(V)
    case 24 => Some(Cr)
    case 25 => Some(Mn)
    case 26 => Some(Fe)
    case 27 => Some(Co)
    case 28 => Some(Ni)
    case 29 => Some(Cu)
    case 30 => Some(Zn)
    case 31 => Some(Ga)
    case 32 => Some(Ge)
    case 33 => Some(As)
    case 34 => Some(Se)
    case 35 => Some(Br)
    case 36 => Some(Kr)
    case 37 => Some(Rb)
    case 38 => Some(Sr)
    case 39 => Some(Y)
    case 40 => Some(Zr)
    case 41 => Some(Nb)
    case 42 => Some(Mo)
    case 43 => Some(Tc)
    case 44 => Some(Ru)
    case 45 => Some(Rh)
    case 46 => Some(Pd)
    case 47 => Some(Ag)
    case 48 => Some(Cd)
    case 49 => Some(In)
    case 50 => Some(Sn)
    case 51 => Some(Sb)
    case 52 => Some(Te)
    case 53 => Some(I)
    case 54 => Some(Xe)
    case 74 => Some(W)
    case _ => None
  }

  /** Every real element has a nuclear charge, and the charge names it back. */
  lemma NuclearChargeNamesElement(a: AtomT)
    requires IsRealElement(a)
    ensures NuclearCharge(a).Some? && ElementOfCharge(NuclearCharge(a).value) == Some(a)
  {
    match a {
      case H =>
      case He =>
      case Li =>
      case Be =>
      case B =>
      case C =>
      case N =>
      case O =>
      case F =>
      case Ne =>
      case Na =>
      case Mg =>
      case Al =>
      case Si =>
      case P =>
      case S =>
      case Cl =>
      case Ar =>
      case K =>
      case Ca =>
      case Sc =>
      case Ti =>
      case V =>
      case Cr =>
      case Mn =>
      case Fe =>
      case Co =>
      case Ni =>
      case Cu =>
      case Zn =>
      case Ga =>
      case Ge =>
      case As =>
      case Se =>
      case Br =>
      case Kr =>
      case Rb =>
      case Sr =>
      case Y =>
      case Zr =>
      case Nb =>
      case Mo =>
      case Tc =>
      case Ru =>
      case Rh =>
      case Pd =>
      case Ag =>
      case Cd =>
      case In =>
      case Sn =>
      case Sb =>
      case Te =>
      case I =>
      case Xe =>
      case W =>
      case M =>
      case Dummy =>
      case Unknown =>
    }
  }

  /** Distinct real elements have distinct nuclear charges. */
  lemma NuclearChargeInjective(a: AtomT, b: AtomT)
    requires IsRealElement(a) && IsRealElement(b)
    ensures NuclearCharge(a) == NuclearCharge(b) <==> a == b
  {
    NuclearChargeNamesElement(a);
    NuclearChargeNamesElement(b);
  }

  const UINT32_MODULUS: int := 0x1_0000_0000

  /** `charge::ionic::get_charge` as written: the function returns `unsigned
      int`, so Cl's -1 comes back as 2^32 - 1. */
  function IonicChargeAsWritten(a: AtomT): Option<nat> {
    match a
    case Ca => Some(2)
    case Cl => Some(UINT32_MODULUS - 1)
    case Zn => Some(2)
    case _ => None
  }

  /** The intended ionic charges, signed. */
  function IonicCharge(a: AtomT): (r: Option<int>)
    ensures r.Some? <==> a in {Ca, Cl, Zn}
  {
    match a
    case Ca => Some(2)
    case Cl => Some(-1)
    case Zn => Some(2)
    case _ => None
  }

  /** The written function is the intended one reduced modulo 2^32, and Cl is
      where the two differ. */
  lemma IonicChargeWraps(a: AtomT)
    ensures IonicChargeAsWritten(a).Some? <==> IonicCharge(a).Some?
    ensures IonicCharge(a).Some? ==> IonicChargeAsWritten(a).value == IonicCharge(a).value % UINT32_MODULUS
    ensures a == Cl ==> IonicChargeAsWritten(a).value != IonicCharge(a).value
  {
  }

  /** `valence::get_valence`: a partial table. */
  function Valence(a: AtomT): Option<nat> {
    match a
    case H => Some(1)
    case C => Some(4)
    case N => Some(3)
    case O => Some(2)
    case F => Some(1)
    case Ne => Some(0)
    case S => Some(2)
    case P => Some(1)
    case Cl => Some(1)
    case Fe => Some(4)
    case Se => Some(2)
    case M => Some(0)
    case _ => None
  }

  /** Every element with a valence also has a nuclear charge. */
  lemma ValenceImpliesCharge(a: AtomT)
    requires Valence(a).Some?
    ensures NuclearCharge(a).Some?
  {
  }

  /** `radius::get_vdw_radius`. The per-element values live in a header that
      is not part of this model, so they are the parameter `vdw`; M has radius
      0 and the dummy the value last given to `set_dummy_radius`. Kr and Xe are
      not in the table. */
  function VdwRadius(a: AtomT, vdw: AtomT -> real, dummyRadius: real): (r: Option<real>)
    ensures r.Some? <==> (IsRealElement(a) && a != Kr && a != Xe) || a == M || a == Dummy
    ensures a == M ==> r == Some(0.0)
    ensures a == Dummy ==> r == Some(dummyRadius)
    ensures IsRealElement(a) && r.Some? ==> r.value == vdw(a)
  {
    match a
    case M => Some(0.0)
    case Dummy => Some(dummyRadius)
    case Kr => None
    case Xe => None
    case Unknown => None
    case _ => Some(vdw(a))
  }

  /** The global dummy radius, initially 1, replaced by `set_dummy_radius`. */
  class RadiusSettings {
    var dummyRadius: real

    constructor ()
      ensures dummyRadius == 1.0
    {
      dummyRadius := 1.0;
    }

    method SetDummyRadius(radius: real)
      modifies this
      ensures dummyRadius == radius
    {
      dummyRadius := radius;
    }

    function GetVdwRadius(a: AtomT, vdw: AtomT -> real): (r: Option<real>)
      reads this
      ensures a == Dummy ==> r == Some(dummyRadius)
    {
      VdwRadius(a, vdw, dummyRadius)
    }
  }

  /** The element and hydrogen count a group stands for. */
  function GroupElement(g: AtomicGroup): Option<AtomT> {
    match g
    case CH => Some(C)
    case CH2 => Some(C)
    case CH3 => Some(C)
    case NH => Some(N)
    case NH2 => Some(N)
    case NH3 => Some(N)
    case OH => Some(O)
    case SH => Some(S)
    case UnknownGroup => None
  }

  function GroupHydrogens(g: AtomicGroup): nat {
    match g
    case CH => 1
    case CH2 => 2
    case CH3 => 3
    case NH => 1
    case NH2 => 2
    case NH3 => 3
    case OH => 1
    case SH => 1
    case UnknownGroup => 0
  }

  /** `get_atomic_group(atom_t, hydrogens)`: the group is the inverse of
      `GroupElement`/`GroupHydrogens`; zero hydrogens, or any combination that
      names no group, gives `unknown`. */
  function GetAtomicGroup(a: AtomT, hydrogens: nat): (g: AtomicGroup)
    ensures hydrogens == 0 ==> g == UnknownGroup
    ensures g != UnknownGroup ==> GroupElement(g) == Some(a) && GroupHydrogens(g) == hydrogens
    ensures g == UnknownGroup <==> !((a == C || a == N) && 1 <= hydrogens <= 3) && !((a == O || a == S) && hydrogens == 1)
  {
    if hydrogens == 0 then UnknownGroup
    else match a
      case C => if hydrogens == 1 then CH else if hydrogens == 2 then CH2 else if hydrogens == 3 then CH3 else UnknownGroup
      case N => if hydrogens == 1 then NH else if hydrogens == 2 then NH2 else if hydrogens == 3 then NH3 else UnknownGroup
      case O => if hydrogens == 1 then OH else UnknownGroup
      case S => if hydrogens == 1 then SH else UnknownGroup
      case _ => UnknownGroup
  }

  /** Every named group is reached from its own element and hydrogen count. */
  lemma GroupRoundTrip(g: AtomicGroup)
    requires g != UnknownGroup
    ensures GetAtomicGroup(GroupElement(g).value, GroupHydrogens(g)) == g
  {
  }

  /** `symbols::to_string(atomic_group_t)`. */
  function GroupToString(g: AtomicGroup): string {
    match g
    case CH => "CH"
    case CH2 => "CH2"
    case CH3 => "CH3"
    case NH => "NH"
    case NH2 => "NH2"
    case NH3 => "NH3"
    case OH => "OH"
    case SH => "SH"
    case UnknownGroup => "unknown"
  }

  /** Group names are distinct. */
  lemma GroupNamesDistinct(g: AtomicGroup, h: AtomicGroup)
    ensures GroupToString(g) == GroupToString(h) <==> g == h
  {
  }
}
