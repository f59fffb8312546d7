/**
  The dose comparison parameter node of the DoseComparison module: the three
  volume references (reference dose, compared dose, gamma output) and the five
  numeric settings of a gamma analysis, with the operations that create, write,
  read, copy and re-reference such a node.

  The numbers are `real`s. Their conversion to and from text is not modelled:
  writing takes the stream's number formatter as a parameter `format`, reading
  takes the C library's `atof` as a parameter `atof`.
*/
module DoseComparison {
  import opened Wrappers

  // ---------------------------------------------------------------------------
  // Attribute names and fields
  // ---------------------------------------------------------------------------

  const ReferenceDoseVolumeNodeIdAttribute: string := "ReferenceDoseVolumeNodeId"
  const CompareDoseVolumeNodeIdAttribute: string := "CompareDoseVolumeNodeId"
  const GammaDoseVolumeNodeIdAttribute: string := "GammaDoseVolumeNodeId"
  const DtaDistanceToleranceMmAttribute: string := "DtaDistanceToleranceMm"
  const DoseDifferenceTolerancePercentAttribute: string := "DoseDifferenceTolerancePercent"
  const ReferenceDoseGyAttribute: string := "ReferenceDoseGy"
  const AnalysisThresholdPercentAttribute: string := "AnalysisThresholdPercent"
  const MaximumGammaAttribute: string := "MaximumGamma"

  /** The three volume-reference fields of the node. */
  datatype IdField = ReferenceVolume | CompareVolume | GammaVolume

  /** The five numeric fields of the node. */
  datatype NumberField = Dta | DoseDifference | ReferenceDose | AnalysisThreshold | MaxGamma

  /** The attribute under which an ID field is persisted. */
  function IdName(f: IdField): string {
    match f
    case ReferenceVolume => ReferenceDoseVolumeNodeIdAttribute
    case CompareVolume => CompareDoseVolumeNodeIdAttribute
    case GammaVolume => GammaDoseVolumeNodeIdAttribute
  }

  /** The attribute under which a numeric field is persisted. */
  function NumberName(f: NumberField): string {
    match f
    case Dta => DtaDistanceToleranceMmAttribute
    case DoseDifference => DoseDifferenceTolerancePercentAttribute
    case ReferenceDose => ReferenceDoseGyAttribute
    case AnalysisThreshold => AnalysisThresholdPercentAttribute
    case MaxGamma => MaximumGammaAttribute
  }

  /** True of the eight attribute names this node reads and writes. */
  predicate IsNodeAttribute(name: string) {
    || name == ReferenceDoseVolumeNodeIdAttribute
    || name == CompareDoseVolumeNodeIdAttribute
    || name == GammaDoseVolumeNodeIdAttribute
    || name == DtaDistanceToleranceMmAttribute
    || name == DoseDifferenceTolerancePercentAttribute
    || name == ReferenceDoseGyAttribute
    || name == AnalysisThresholdPercentAttribute
    || name == MaximumGammaAttribute
  }

  /**
    Position of an attribute in the order in which the node writes them: the
    three IDs, then the five numbers; 8 for every other name.
  */
  function Rank(name: string): (r: nat) {
    if name == ReferenceDoseVolumeNodeIdAttribute then 0
    else if name == CompareDoseVolumeNodeIdAttribute then 1
    else if name == GammaDoseVolumeNodeIdAttribute then 2
    else if name == DtaDistanceToleranceMmAttribute then 3
    else if name == DoseDifferenceTolerancePercentAttribute then 4
    else if name == ReferenceDoseGyAttribute then 5
    else if name == AnalysisThresholdPercentAttribute then 6
    else if name == MaximumGammaAttribute then 7
    else 8
  }

  // ---------------------------------------------------------------------------
  // The node's contents as a value
  // ---------------------------------------------------------------------------

  /** The eight fields of a dose comparison node; `None` is a null ID. */
  datatype Parameters = Parameters(
    referenceDoseVolumeNodeId: Option<string>,
    compareDoseVolumeNodeId: Option<string>,
    gammaDoseVolumeNodeId: Option<string>,
    dtaDistanceToleranceMm: real,
    doseDifferenceTolerancePercent: real,
    referenceDoseGy: real,
    analysisThresholdPercent: real,
    maximumGamma: real)
  {
    function Id(f: IdField): Option<string> {
      match f
      case ReferenceVolume => referenceDoseVolumeNodeId
      case CompareVolume => compareDoseVolumeNodeId
      case GammaVolume => gammaDoseVolumeNodeId
    }

    function Number(f: NumberField): real {
      match f
      case Dta => dtaDistanceToleranceMm
      case DoseDifference => doseDifferenceTolerancePercent
      case ReferenceDose => referenceDoseGy
      case AnalysisThreshold => analysisThresholdPercent
      case MaxGamma => maximumGamma
    }
  }

  /** The contents of a freshly constructed node. */
  function Defaults(): (r: Parameters) {
    Parameters(None, None, None, 3.0, 3.0, 0.0, 0.0, 2.0)
  }

  /** One XML attribute, as a name and its unquoted value text. */
  datatype Attribute = Attribute(name: string, value: string)

  // ---------------------------------------------------------------------------
  // Reading attributes
  // ---------------------------------------------------------------------------

  /**
    The effect of one name/value pair on the node: a recognised name sets its
    own field (an ID to the value text, a number to `atof` of it) and nothing
    else; any other name leaves the node as it was.
  */
  function Apply(s: Parameters, a: Attribute, atof: string -> real): (r: Parameters)
    ensures forall f: IdField :: r.Id(f) == if a.name == IdName(f) then Some(a.value) else s.Id(f)
    ensures forall g: NumberField :: r.Number(g) == if a.name == NumberName(g) then atof(a.value) else s.Number(g)
    ensures !IsNodeAttribute(a.name) ==> r == s
  {
    if a.name == ReferenceDoseVolumeNodeIdAttribute then s.(referenceDoseVolumeNodeId := Some(a.value))
    else if a.name == CompareDoseVolumeNodeIdAttribute then s.(compareDoseVolumeNodeId := Some(a.value))
    else if a.name == GammaDoseVolumeNodeIdAttribute then s.(gammaDoseVolumeNodeId := Some(a.value))
    else if a.name == DtaDistanceToleranceMmAttribute then s.(dtaDistanceToleranceMm := atof(a.value))
    else if a.name == DoseDifferenceTolerancePercentAttribute then s.(doseDifferenceTolerancePercent := atof(a.value))
    else if a.name == ReferenceDoseGyAttribute then s.(referenceDoseGy := atof(a.value))
    else if a.name == AnalysisThresholdPercentAttribute then s.(analysisThresholdPercent := atof(a.value))
    else if a.name == MaximumGammaAttribute then s.(maximumGamma := atof(a.value))
    else s
  }

  /** The node after reading the attribute list from first to last. */
  function ReadAll(s: Parameters, atts: seq<Attribute>, atof: string -> real): (r: Parameters)
    decreases |atts|
  {
    if atts == [] then s else ReadAll(Apply(s, atts[0], atof), atts[1..], atof)
  }

  /** The value of the last attribute called `name` in `atts`, if there is one. */
  function LastValue(atts: seq<Attribute>, name: string): (r: Option<string>)
    decreases |atts|
  {
    if atts == [] then None
    else
      var later := LastValue(atts[1..], name);
      if later.Some? then later
      else if atts[0].name == name then Some(atts[0].value)
      else None
  }

  /** LastValue finds nothing when no attribute has the name. */
  lemma {:induction false} LastValueAbsent(atts: seq<Attribute>, name: string)
    requires forall i :: 0 <= i < |atts| ==> atts[i].name != name
    ensures LastValue(atts, name) == None
    decreases |atts|
  {
    if atts != [] {
      LastValueAbsent(atts[1..], name);
    }
  }

  /** LastValue is the value of the attribute at the last position carrying the name. */
  lemma {:induction false} LastValueAt(atts: seq<Attribute>, name: string, k: nat)
    requires k < |atts| && atts[k].name == name
    requires forall j :: k < j < |atts| ==> atts[j].name != name
    ensures LastValue(atts, name) == Some(atts[k].value)
    decreases |atts|
  {
    if k == 0 {
      LastValueAbsent(atts[1..], name);
    } else {
      LastValueAt(atts[1..], name, k - 1);
    }
  }

  /** A later block of attributes overrides an earlier one. */
  lemma {:induction false} LastValueAppend(a: seq<Attribute>, b: seq<Attribute>, name: string)
    ensures LastValue(a + b, name) == if LastValue(b, name).Some? then LastValue(b, name) else LastValue(a, name)
    decreases |a|
  {
    if a == [] {
      assert a + b == b;
    } else {
      assert (a + b)[1..] == a[1..] + b;
      LastValueAppend(a[1..], b, name);
    }
  }

  /**
    Reading a list of attributes leaves each ID field holding the value of the
    last attribute with its name, or its previous value when there is none.
  */
  lemma {:induction false} ReadAllId(s: Parameters, atts: seq<Attribute>, atof: string -> real, f: IdField)
    ensures ReadAll(s, atts, atof).Id(f) ==
      if LastValue(atts, IdName(f)).Some? then LastValue(atts, IdName(f)) else s.Id(f)
    decreases |atts|
  {
    if atts != [] {
      ReadAllId(Apply(s, atts[0], atof), atts[1..], atof, f);
    }
  }

  /**
    Reading a list of attributes leaves each numeric field holding `atof` of
    the last attribute with its name, or its previous value when there is none.
  */
  lemma {:induction false} ReadAllNumber(s: Parameters, atts: seq<Attribute>, atof: string -> real, g: NumberField)
    ensures ReadAll(s, atts, atof).Number(g) ==
      if LastValue(atts, NumberName(g)).Some? then atof(LastValue(atts, NumberName(g)).value) else s.Number(g)
    decreases |atts|
  {
    if atts != [] {
      ReadAllNumber(Apply(s, atts[0], atof), atts[1..], atof, g);
    }
  }

  /** Reading two lists one after the other is reading their concatenation. */
  lemma {:induction false} ReadAllAppend(s: Parameters, a: seq<Attribute>, b: seq<Attribute>, atof: string -> real)
    ensures ReadAll(s, a + b, atof) == ReadAll(ReadAll(s, a, atof), b, atof)
    decreases |a|
  {
    if a == [] {
      assert a + b == b;
    } else {
      assert (a + b)[1..] == a[1..] + b;
      ReadAllAppend(Apply(s, a[0], atof), a[1..], b, atof);
    }
  }

  /** Attributes whose names the node does not know change nothing. */
  lemma {:induction false} ReadAllIgnoresUnknown(s: Parameters, atts: seq<Attribute>, atof: string -> real)
    requires forall i :: 0 <= i < |atts| ==> !IsNodeAttribute(atts[i].name)
    ensures ReadAll(s, atts, atof) == s
    decreases |atts|
  {
    if atts != [] {
      ReadAllIgnoresUnknown(Apply(s, atts[0], atof), atts[1..], atof);
    }
  }

  // ---------------------------------------------------------------------------
  // Writing attributes
  // ---------------------------------------------------------------------------

  /** The attribute for an ID field: present exactly when the ID is not null. */
  function IdAttribute(f: IdField, id: Option<string>): (r: seq<Attribute>) {
    if id.Some? then [Attribute(IdName(f), id.value)] else []
  }

  /** The five numeric attributes, always written, in their fixed order. */
  function NumberAttributes(p: Parameters, format: real -> string): (r: seq<Attribute>) {
    [ Attribute(DtaDistanceToleranceMmAttribute, format(p.dtaDistanceToleranceMm)),
      Attribute(DoseDifferenceTolerancePercentAttribute, format(p.doseDifferenceTolerancePercent)),
      Attribute(ReferenceDoseGyAttribute, format(p.referenceDoseGy)),
      Attribute(AnalysisThresholdPercentAttribute, format(p.analysisThresholdPercent)),
      Attribute(MaximumGammaAttribute, format(p.maximumGamma)) ]
  }

  /** The ID attributes, in the order Reference, Compare, Gamma. */
  function IdAttributes(p: Parameters): (r: seq<Attribute>) {
    IdAttribute(ReferenceVolume, p.referenceDoseVolumeNodeId)
    + IdAttribute(CompareVolume, p.compareDoseVolumeNodeId)
    + IdAttribute(GammaVolume, p.gammaDoseVolumeNodeId)
  }

  /** The attributes the node writes after those of its base class. */
  function Written(p: Parameters, format: real -> string): (r: seq<Attribute>) {
    IdAttributes(p) + NumberAttributes(p, format)
  }

  /** The number of non-null IDs. */
  function PresentIds(p: Parameters): (r: nat) {
    (if p.referenceDoseVolumeNodeId.Some? then 1 else 0)
    + (if p.compareDoseVolumeNodeId.Some? then 1 else 0)
    + (if p.gammaDoseVolumeNodeId.Some? then 1 else 0)
  }

  /** Names appear in strictly increasing Rank: fixed order, none repeated. */
  predicate StrictlyRanked(w: seq<Attribute>) {
    forall i, j :: 0 <= i < j < |w| ==> Rank(w[i].name) < Rank(w[j].name)
  }

  /** Two ranked lists, all ranks of the first below all ranks of the second, concatenate to a ranked list. */
  lemma RankedAppend(x: seq<Attribute>, y: seq<Attribute>, k: nat)
    requires StrictlyRanked(x) && StrictlyRanked(y)
    requires forall i :: 0 <= i < |x| ==> Rank(x[i].name) < k
    requires forall j :: 0 <= j < |y| ==> k <= Rank(y[j].name)
    ensures StrictlyRanked(x + y)
  {
  }

  /** The eight known names are exactly those ranked below 8. */
  lemma RankKnown(name: string)
    ensures IsNodeAttribute(name) <==> Rank(name) < 8
  {
  }

  /** The attribute of one ID field: at most one, ranked by the field. */
  lemma IdAttributeRanked(f: IdField, id: Option<string>, k: nat)
    requires k == match f case ReferenceVolume => 0 case CompareVolume => 1 case GammaVolume => 2
    ensures |IdAttribute(f, id)| == if id.Some? then 1 else 0
    ensures StrictlyRanked(IdAttribute(f, id))
    ensures forall i :: 0 <= i < |IdAttribute(f, id)| ==> Rank(IdAttribute(f, id)[i].name) == k
  {
  }

  /** The ID part is ranked, below 3, one attribute per non-null ID. */
  lemma IdAttributesRanked(p: Parameters)
    ensures |IdAttributes(p)| == PresentIds(p)
    ensures StrictlyRanked(IdAttributes(p))
    ensures forall i :: 0 <= i < |IdAttributes(p)| ==> Rank(IdAttributes(p)[i].name) < 3
  {
  }

  /** The numeric part is ranked 3 to 7, in that order. */
  lemma NumberAttributesRanked(p: Parameters, format: real -> string)
    ensures |NumberAttributes(p, format)| == 5
    ensures forall i :: 0 <= i < 5 ==> Rank(NumberAttributes(p, format)[i].name) == 3 + i
  {
  }

  /**
    Shape of the written attributes: one per non-null ID and five numbers, all
    names known to the node, in strictly increasing Rank (so Reference,
    Compare, Gamma, then DtaDistanceToleranceMm, DoseDifferenceTolerancePercent,
    ReferenceDoseGy, AnalysisThresholdPercent, MaximumGamma, none repeated),
    the last five being the numbers.
  */
  lemma WrittenShape(p: Parameters, format: real -> string)
    ensures |Written(p, format)| == PresentIds(p) + 5
    ensures forall i :: 0 <= i < |Written(p, format)| ==> IsNodeAttribute(Written(p, format)[i].name)
    ensures StrictlyRanked(Written(p, format))
    ensures forall i :: PresentIds(p) <= i < |Written(p, format)| ==> 3 <= Rank(Written(p, format)[i].name)
  {
    var ids := IdAttributes(p);
    var nums := NumberAttributes(p, format);
    IdAttributesRanked(p);
    NumberAttributesRanked(p, format);
    RankedAppend(ids, nums, 3);
    var w := ids + nums;
    forall i | 0 <= i < |w| ensures IsNodeAttribute(w[i].name) && (PresentIds(p) <= i ==> 3 <= Rank(w[i].name)) {
      if i < |ids| { assert w[i] == ids[i]; } else { assert w[i] == nums[i - |ids|]; }
      RankKnown(w[i].name);
    }
  }

  /** Each ID is written, under its own name, exactly when it is not null. */
  lemma WrittenId(p: Parameters, format: real -> string, f: IdField)
    ensures LastValue(Written(p, format), IdName(f)) == p.Id(f)
  {
    var a := IdAttribute(ReferenceVolume, p.referenceDoseVolumeNodeId);
    var b := IdAttribute(CompareVolume, p.compareDoseVolumeNodeId);
    var c := IdAttribute(GammaVolume, p.gammaDoseVolumeNodeId);
    var nums := NumberAttributes(p, format);
    var name := IdName(f);
    LastValueAppend(a + b + c, nums, name);
    LastValueAppend(a + b, c, name);
    LastValueAppend(a, b, name);
    LastValueAbsent(nums, name);
  }

  /** Each number is written, under its own name, as its formatted text. */
  lemma WrittenNumber(p: Parameters, format: real -> string, g: NumberField)
    ensures LastValue(Written(p, format), NumberName(g)) == Some(format(p.Number(g)))
  {
    var ids := IdAttribute(ReferenceVolume, p.referenceDoseVolumeNodeId)
      + IdAttribute(CompareVolume, p.compareDoseVolumeNodeId)
      + IdAttribute(GammaVolume, p.gammaDoseVolumeNodeId);
    var nums := NumberAttributes(p, format);
    LastValueAppend(ids, nums, NumberName(g));
    var k := match g case Dta => 0 case DoseDifference => 1 case ReferenceDose => 2
      case AnalysisThreshold => 3 case MaxGamma => 4;
    LastValueAt(nums, NumberName(g), k);
  }

  /**
    Reading back what the node wrote, after attributes of the base class that
    this node does not know: every ID that was written is restored exactly, a
    null ID leaves the reading node's field as it was, and every number is
    `atof` of its formatted text.
  */
  lemma ReadBackWritten(s: Parameters, base: seq<Attribute>, p: Parameters,
                        format: real -> string, atof: string -> real)
    requires forall i :: 0 <= i < |base| ==> !IsNodeAttribute(base[i].name)
    ensures forall f: IdField :: (ReadAll(s, base + Written(p, format), atof).Id(f) ==
      if p.Id(f).Some? then p.Id(f) else s.Id(f))
    ensures forall g: NumberField :: (ReadAll(s, base + Written(p, format), atof).Number(g) ==
      atof(format(p.Number(g))))
  {
    var w := Written(p, format);
    ReadAllAppend(s, base, w, atof);
    ReadAllIgnoresUnknown(s, base, atof);
    forall f: IdField ensures ReadAll(s, w, atof).Id(f) == if p.Id(f).Some? then p.Id(f) else s.Id(f) {
      ReadAllId(s, w, atof, f);
      WrittenId(p, format, f);
    }
    forall g: NumberField ensures ReadAll(s, w, atof).Number(g) == atof(format(p.Number(g))) {
      ReadAllNumber(s, w, atof, g);
      WrittenNumber(p, format, g);
    }
  }

  /** A new node that reads what another node wrote has that node's three IDs. */
  lemma ReadBackIntoNewNode(p: Parameters, format: real -> string, atof: string -> real)
    ensures var r := ReadAll(Defaults(), Written(p, format), atof);
      r.referenceDoseVolumeNodeId == p.referenceDoseVolumeNodeId &&
      r.compareDoseVolumeNodeId == p.compareDoseVolumeNodeId &&
      r.gammaDoseVolumeNodeId == p.gammaDoseVolumeNodeId
  {
    ReadBackWritten(Defaults(), [], p, format, atof);
    assert [] + Written(p, format) == Written(p, format);
    assert Defaults().Id(ReferenceVolume) == None;
    assert Defaults().Id(CompareVolume) == None;
    assert Defaults().Id(GammaVolume) == None;
  }

  // ---------------------------------------------------------------------------
  // Renaming a referenced node
  // ---------------------------------------------------------------------------

  /**
    An ID after the node it refers to changed its ID from `oldID` to `newID`:
    only a non-null ID equal to `oldID` is replaced. A null `oldID` matches no
    ID.
  */
  function Rename(id: Option<string>, oldID: Option<string>, newID: Option<string>): (r: Option<string>) {
    if id.Some? && oldID == id then newID else id
  }

  /** The node after `UpdateReferenceID(oldID, newID)`; a null `newID` clears. */
  function Renamed(p: Parameters, oldID: Option<string>, newID: Option<string>): (r: Parameters) {
    p.(referenceDoseVolumeNodeId := Rename(p.referenceDoseVolumeNodeId, oldID, newID),
       compareDoseVolumeNodeId := Rename(p.compareDoseVolumeNodeId, oldID, newID),
       gammaDoseVolumeNodeId := Rename(p.gammaDoseVolumeNodeId, oldID, newID))
  }

  /**
    Each non-null ID equal to `oldID` becomes `newID`, independently of the
    others; null and non-matching IDs and all numbers are unchanged.
  */
  lemma RenamedFields(p: Parameters, oldID: Option<string>, newID: Option<string>)
    ensures forall f: IdField :: (Renamed(p, oldID, newID).Id(f) ==
      if p.Id(f).Some? && p.Id(f) == oldID then newID else p.Id(f))
    ensures forall g: NumberField :: Renamed(p, oldID, newID).Number(g) == p.Number(g)
  {
  }

  /** Renaming twice with the same arguments is renaming once. */
  lemma RenamedIdempotent(p: Parameters, oldID: Option<string>, newID: Option<string>)
    ensures Renamed(Renamed(p, oldID, newID), oldID, newID) == Renamed(p, oldID, newID)
  {
  }

  // ---------------------------------------------------------------------------
  // The node
  // ---------------------------------------------------------------------------

  /** vtkMRMLDoseComparisonNode: parameters of one dose comparison. */
  class DoseComparisonNode {
    var ReferenceDoseVolumeNodeId: Option<string>
    var CompareDoseVolumeNodeId: Option<string>
    var GammaDoseVolumeNodeId: Option<string>
    var DtaDistanceToleranceMm: real
    var DoseDifferenceTolerancePercent: real
    var ReferenceDoseGy: real
    var AnalysisThresholdPercent: real
    var MaximumGamma: real

    /** The node's eight fields as a value. */
    function State(): Parameters
      reads this
    {
      Parameters(ReferenceDoseVolumeNodeId, CompareDoseVolumeNodeId, GammaDoseVolumeNodeId,
                 DtaDistanceToleranceMm, DoseDifferenceTolerancePercent, ReferenceDoseGy,
                 AnalysisThresholdPercent, MaximumGamma)
    }

    /** A new node: no volumes referenced, 3 mm / 3 % tolerances, maximum gamma 2. */
    constructor ()
      ensures ReferenceDoseVolumeNodeId == None && CompareDoseVolumeNodeId == None
      ensures GammaDoseVolumeNodeId == None
      ensures DtaDistanceToleranceMm == 3.0 && DoseDifferenceTolerancePercent == 3.0
      ensures ReferenceDoseGy == 0.0 && AnalysisThresholdPercent == 0.0 && MaximumGamma == 2.0
      ensures State() == Defaults()
    {
      ReferenceDoseVolumeNodeId := None;
      CompareDoseVolumeNodeId := None;
      GammaDoseVolumeNodeId := None;
      DtaDistanceToleranceMm := 3.0;
      DoseDifferenceTolerancePercent := 3.0;
      ReferenceDoseGy := 0.0;
      AnalysisThresholdPercent := 0.0;
      MaximumGamma := 2.0;
    }

    /**
      Appends the node's attributes to the stream `of`, which already holds
      those of the base class.
    */
    method WriteXML(of: seq<Attribute>, format: real -> string) returns (out: seq<Attribute>)
      ensures out == of + Written(State(), format)
    {
      out := of;
      if ReferenceDoseVolumeNodeId.Some? {
        out := out + [Attribute(ReferenceDoseVolumeNodeIdAttribute, ReferenceDoseVolumeNodeId.value)];
      }
      if CompareDoseVolumeNodeId.Some? {
        out := out + [Attribute(CompareDoseVolumeNodeIdAttribute, CompareDoseVolumeNodeId.value)];
      }
      if GammaDoseVolumeNodeId.Some? {
        out := out + [Attribute(GammaDoseVolumeNodeIdAttribute, GammaDoseVolumeNodeId.value)];
      }
      out := out + [Attribute(DtaDistanceToleranceMmAttribute, format(DtaDistanceToleranceMm))];
      out := out + [Attribute(DoseDifferenceTolerancePercentAttribute, format(DoseDifferenceTolerancePercent))];
      out := out + [Attribute(ReferenceDoseGyAttribute, format(ReferenceDoseGy))];
      out := out + [Attribute(AnalysisThresholdPercentAttribute, format(AnalysisThresholdPercent))];
      out := out + [Attribute(MaximumGammaAttribute, format(MaximumGamma))];
    }

    /** Sets the node's fields from the name/value pairs of a scene file element. */
    method ReadXMLAttributes(atts: seq<Attribute>, atof: string -> real)
      modifies this
      ensures State() == ReadAll(old(State()), atts, atof)
    {
      var i := 0;
      while i < |atts|
        invariant 0 <= i <= |atts|
        invariant ReadAll(State(), atts[i..], atof) == ReadAll(old(State()), atts, atof)
      {
        ghost var before := State();
        var attName := atts[i].name;
        var attValue := atts[i].value;
        if attName == ReferenceDoseVolumeNodeIdAttribute {
          ReferenceDoseVolumeNodeId := Some(attValue);
        } else if attName == CompareDoseVolumeNodeIdAttribute {
          CompareDoseVolumeNodeId := Some(attValue);
        } else if attName == GammaDoseVolumeNodeIdAttribute {
          GammaDoseVolumeNodeId := Some(attValue);
        } else if attName == DtaDistanceToleranceMmAttribute {
          DtaDistanceToleranceMm := atof(attValue);
        } else if attName == DoseDifferenceTolerancePercentAttribute {
          DoseDifferenceTolerancePercent := atof(attValue);
        } else if attName == ReferenceDoseGyAttribute {
          ReferenceDoseGy := atof(attValue);
        } else if attName == AnalysisThresholdPercentAttribute {
          AnalysisThresholdPercent := atof(attValue);
        } else if attName == MaximumGammaAttribute {
          MaximumGamma := atof(attValue);
        }
        assert State() == Apply(before, atts[i], atof);
        assert atts[i..][1..] == atts[i + 1..];
        i := i + 1;
      }
    }

    /** Copies all eight fields of another dose comparison node into this one. */
    method Copy(node: DoseComparisonNode)
      modifies this
      ensures State() == old(node.State())
    {
      ReferenceDoseVolumeNodeId := node.ReferenceDoseVolumeNodeId;
      CompareDoseVolumeNodeId := node.CompareDoseVolumeNodeId;
      GammaDoseVolumeNodeId := node.GammaDoseVolumeNodeId;
      DtaDistanceToleranceMm := node.DtaDistanceToleranceMm;
      DoseDifferenceTolerancePercent := node.DoseDifferenceTolerancePercent;
      ReferenceDoseGy := node.ReferenceDoseGy;
      AnalysisThresholdPercent := node.AnalysisThresholdPercent;
      MaximumGamma := node.MaximumGamma;
    }

    /**
      Re-points every ID equal to `oldID` at `newID`; a null `newID` clears it.
      Comparing a null `oldID` with a non-null ID is undefined, so a null
      `oldID` is only allowed on a node whose IDs are all null, where the call
      changes nothing.
    */
    method UpdateReferenceID(oldID: Option<string>, newID: Option<string>)
      requires oldID.Some? || (ReferenceDoseVolumeNodeId.None? && CompareDoseVolumeNodeId.None? && GammaDoseVolumeNodeId.None?)
      modifies this
      ensures State() == Renamed(old(State()), oldID, newID)
    {
      if ReferenceDoseVolumeNodeId.Some? && oldID.value == ReferenceDoseVolumeNodeId.value {
        ReferenceDoseVolumeNodeId := newID;
      }
      if CompareDoseVolumeNodeId.Some? && oldID.value == CompareDoseVolumeNodeId.value {
        CompareDoseVolumeNodeId := newID;
      }
      if GammaDoseVolumeNodeId.Some? && oldID.value == GammaDoseVolumeNodeId.value {
        GammaDoseVolumeNodeId := newID;
      }
    }
  }
}
