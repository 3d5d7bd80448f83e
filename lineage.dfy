/**
 * Unique ids of node occurrences (pkg/controller/nodes/common/utils.go). A node's unique id
 * is derived from its parent's unique id, the parent's attempt in decimal and the local node
 * id, through a length-bounded id function that lies outside this model.
 */
module Lineage {
  import opened Wrappers
  import opened Core
  import opened ExecutionContexts

  /** maxUniqueIDLength */
  const MaxUniqueIdLength: nat := 20

  /**
   * utils.FixedLengthUniqueIDForParts(maxLength, parts...): an opaque, possibly failing,
   * length-bounded id function. Its hashing scheme is not modelled.
   */
  type FixedLengthIdFn = (nat, seq<string>) -> Result<string, Error>

  // ---------------------------------------------------------------------------
  // strconv.Itoa on the non-negative values an attempt counter can take
  // ---------------------------------------------------------------------------

  predicate IsDigit(c: char) {
    '0' <= c <= '9'
  }

  /** A canonical decimal numeral: non-empty, digits only, no leading zero. */
  predicate IsDecimal(s: string) {
    && |s| > 0
    && (forall i :: 0 <= i < |s| ==> IsDigit(s[i]))
    && (|s| > 1 ==> s[0] != '0')
  }

  function DigitChar(d: nat): (c: char)
    requires d < 10
    ensures IsDigit(c)
  {
    (('0' as int) + d) as char
  }

  function DigitValue(c: char): (d: nat)
    requires IsDigit(c)
    ensures d < 10
  {
    (c as int - '0' as int) as nat
  }

  /** strconv.Itoa: the shortest decimal rendering of n. */
  function Itoa(n: nat): (s: string)
    ensures IsDecimal(s)
    ensures s[0] == '0' <==> n == 0
    decreases n
  {
    if n < 10 then [DigitChar(n)] else Itoa(n / 10) + [DigitChar(n % 10)]
  }

  /** The value of a string of digits, most significant first. */
  function ParseDecimal(s: string): nat
    requires forall i :: 0 <= i < |s| ==> IsDigit(s[i])
    decreases |s|
  {
    if s == [] then 0 else ParseDecimal(s[..|s| - 1]) * 10 + DigitValue(s[|s| - 1])
  }

  /** Reading back the decimal rendering gives the number: Itoa loses no information. */
  lemma {:induction false} ItoaRoundTrip(n: nat)
    ensures ParseDecimal(Itoa(n)) == n
    decreases n
  {
    var s := Itoa(n);
    if n < 10 {
      assert s[..|s| - 1] == [];
    } else {
      ItoaRoundTrip(n / 10);
      assert s[..|s| - 1] == Itoa(n / 10);
      assert s[|s| - 1] == DigitChar(n % 10);
    }
  }

  /** Distinct attempts render to distinct strings. */
  lemma ItoaInjective(a: nat, b: nat)
    ensures Itoa(a) == Itoa(b) ==> a == b
  {
    ItoaRoundTrip(a);
    ItoaRoundTrip(b);
  }

  // ---------------------------------------------------------------------------
  // GenerateUniqueID and CreateParentInfo
  // ---------------------------------------------------------------------------

  /**
   * The parts handed to the id function, in order: the parent's unique id, the parent's
   * attempt in decimal, the local node id. Without a parent the first two are empty.
   */
  function IdParts(parent: Option<ParentInfo>, nodeId: NodeId): (parts: seq<string>)
    ensures |parts| == 3 && parts[2] == nodeId
    ensures parent.None? ==> parts[0] == "" && parts[1] == ""
    ensures parent.Some? ==> parts[0] == parent.value.uniqueId && IsDecimal(parts[1])
    ensures parent.Some? ==> ParseDecimal(parts[1]) == parent.value.currentAttempt as nat
  {
    match parent
    case None => ["", "", nodeId]
    case Some(p) =>
      ItoaRoundTrip(p.currentAttempt as nat);
      [p.uniqueId, Itoa(p.currentAttempt as nat), nodeId]
  }

  /**
   * Distinct lineages ask the id function about distinct part lists, so any collision of
   * unique ids comes from the bounded id function alone. A missing parent and a parent
   * whose unique id is empty are told apart by the attempt part, which is never empty.
   */
  lemma IdPartsInjective(p1: Option<ParentInfo>, n1: NodeId, p2: Option<ParentInfo>, n2: NodeId)
    ensures IdParts(p1, n1) == IdParts(p2, n2) ==> p1 == p2 && n1 == n2
  {
    if IdParts(p1, n1) == IdParts(p2, n2) && p1.Some? && p2.Some? {
      ItoaInjective(p1.value.currentAttempt as nat, p2.value.currentAttempt as nat);
    }
  }

  /** A retry of the parent changes the attempt part, hence the parts of every child id. */
  lemma RetryChangesIdParts(uniqueId: string, a1: uint32, a2: uint32, nodeId: NodeId)
    requires a1 != a2
    ensures IdParts(Some(ParentInfo(uniqueId, a1)), nodeId) != IdParts(Some(ParentInfo(uniqueId, a2)), nodeId)
  {
    IdPartsInjective(Some(ParentInfo(uniqueId, a1)), nodeId, Some(ParentInfo(uniqueId, a2)), nodeId);
  }

  /** GenerateUniqueID: the fixed-length id of (parent unique id, parent attempt, node id). */
  function GenerateUniqueId(fixedId: FixedLengthIdFn, parent: Option<ParentInfo>, nodeId: NodeId): (r: Result<string, Error>)
    ensures parent.None? ==> r == fixedId(20, ["", "", nodeId])
    ensures parent.Some? ==> r == fixedId(20, [parent.value.uniqueId, Itoa(parent.value.currentAttempt as nat), nodeId])
  {
    fixedId(MaxUniqueIdLength, IdParts(parent, nodeId))
  }

  /**
   * CreateParentInfo: the lineage record for a node about to become a parent. Its unique id
   * comes from the grandparent's lineage; its attempt is the node's own attempt.
   */
  function CreateParentInfo(fixedId: FixedLengthIdFn, grandParent: Option<ParentInfo>, nodeId: NodeId,
                            parentAttempt: uint32): (r: Result<ParentInfo, Error>)
    ensures r.Ok? <==> GenerateUniqueId(fixedId, grandParent, nodeId).Ok?
    ensures r.Ok? ==> r.value.uniqueId == GenerateUniqueId(fixedId, grandParent, nodeId).value
    ensures r.Ok? ==> r.value.currentAttempt == parentAttempt
    ensures r.Err? ==> r.error == GenerateUniqueId(fixedId, grandParent, nodeId).error
  {
    match GenerateUniqueId(fixedId, grandParent, nodeId)
    case Err(e) => Err(e)
    case Ok(uniqueId) => Ok(ParentInfo(uniqueId, parentAttempt))
  }
}
