/** Neutrino flavours, flavour-interaction combinations and their groupings. */
module FlavInt {

  datatype Flav = Nue | Numu | Nutau | Nuebar | Numubar | Nutaubar
  datatype IntType = CC | NC
  datatype FlavInt = FlavInt(flav: Flav, kind: IntType)

  /** A group of flavour-interaction combinations processed together, in the order
      they are written; an output name stands for the group it parses to, so the
      twelve fixed names are one-element groups. */
  type Group = seq<FlavInt>

  function FlavName(f: Flav): string
  {
    match f
    case Nue => "nue"
    case Numu => "numu"
    case Nutau => "nutau"
    case Nuebar => "nuebar"
    case Numubar => "numubar"
    case Nutaubar => "nutaubar"
  }

  function FlavIntName(fi: FlavInt): string
  {
    FlavName(fi.flav) + (if fi.kind == CC then "_cc" else "_nc")
  }

  /** The text of a name: its members joined by '+'. */
  function GroupName(g: Group): string
  {
    if |g| == 0 then "" else if |g| == 1 then FlavIntName(g[0])
    else GroupName(g[..|g| - 1]) + "+" + FlavIntName(g[|g| - 1])
  }

  /** The six input names of a neutrino stage. */
  const NeutrinoInputs: seq<Flav> := [Nue, Numu, Nutau, Nuebar, Numubar, Nutaubar]

  /** The twelve fixed output names: all charged-current channels, then all neutral-current ones. */
  const FlavIntOutputs: seq<Group> :=
    [[FlavInt(Nue, CC)], [FlavInt(Numu, CC)], [FlavInt(Nutau, CC)],
     [FlavInt(Nuebar, CC)], [FlavInt(Numubar, CC)], [FlavInt(Nutaubar, CC)],
     [FlavInt(Nue, NC)], [FlavInt(Numu, NC)], [FlavInt(Nutau, NC)],
     [FlavInt(Nuebar, NC)], [FlavInt(Numubar, NC)], [FlavInt(Nutaubar, NC)]]

  /** `group.flavs()`: the flavours present in a group. */
  function Flavs(g: Group): (fs: set<Flav>)
    ensures forall k :: 0 <= k < |g| ==> g[k].flav in fs
    ensures forall f :: f in fs ==> exists k :: 0 <= k < |g| && g[k].flav == f
  {
    set k | 0 <= k < |g| :: g[k].flav
  }

  /** `name in group`: every combination the name stands for belongs to the group. */
  predicate Contains(g: Group, name: Group)
  {
    forall k :: 0 <= k < |name| ==> name[k] in g
  }

  /** `output_name in ['nutau_cc', 'nutaubar_cc']`: a string comparison on the name's text. */
  predicate IsNutauCCName(name: Group)
  {
    GroupName(name) == "nutau_cc" || GroupName(name) == "nutaubar_cc"
  }

  /** The text of a name with two or more members contains a '+'. */
  lemma {:induction false} PlusInGroupName(g: Group)
    requires |g| >= 2
    ensures '+' in GroupName(g)
  {
    var init := GroupName(g[..|g| - 1]);
    assert GroupName(g) == init + "+" + FlavIntName(g[|g| - 1]);
    assert GroupName(g)[|init|] == '+';
  }

  /** The only combinations written "nutau_cc" and "nutaubar_cc". */
  lemma TauCCText(fi: FlavInt)
    ensures FlavIntName(fi) == "nutau_cc" <==> fi == FlavInt(Nutau, CC)
    ensures FlavIntName(fi) == "nutaubar_cc" <==> fi == FlavInt(Nutaubar, CC)
  {
    var suffix := if fi.kind == CC then "_cc" else "_nc";
    assert FlavIntName(fi) == FlavName(fi.flav) + suffix;
    if fi.kind == NC {
      assert FlavIntName(fi)[|FlavIntName(fi)| - 2] == 'n';
    }
    match fi.flav
    case Nue =>
    case Numu =>
    case Nutau =>
    case Nuebar =>
    case Numubar =>
    case Nutaubar =>
  }

  /** Only the two one-member names of tau charged-current channels pass the text test;
      in particular no name of a group with several members does. */
  lemma NutauCCNameMeaning(name: Group)
    ensures IsNutauCCName(name) <==> (name == [FlavInt(Nutau, CC)] || name == [FlavInt(Nutaubar, CC)])
  {
    if |name| >= 2 {
      PlusInGroupName(name);
      assert '+' !in "nutau_cc" && '+' !in "nutaubar_cc";
    } else if |name| == 1 {
      assert GroupName(name) == FlavIntName(name[0]);
      TauCCText(name[0]);
    } else {
      assert GroupName(name) == "";
    }
  }
}
