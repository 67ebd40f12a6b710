/** Block names: which family and index a tensor name belongs to, and block ids. */
module Blocks {
  import opened Common
  import opened Text
  import opened Checkpoint

  /** Families are tried in order; the first that matches wins. */
  datatype BlockConfig = BlockConfig(modelPrefix: Option<string>, families: seq<string>)

  /** `modelId` is 0 until a model stamps the block. */
  datatype Block = Block(id: string, family: string, index: Option<nat>, tensors: seq<Descriptor>, modelId: nat)

  // ----------------------------------------------------------------- matching

  /** The name without the configured prefix, when it has it. */
  function Candidate(config: BlockConfig, name: string): string {
    match config.modelPrefix
    case None => name
    case Some(prefix) => if prefix + "." <= name then name[|prefix| + 1..] else name
  }

  /** The optional prefix is stripped as a whole leading part or not at all. */
  lemma CandidateStrips(config: BlockConfig, name: string, rest: string)
    ensures config.modelPrefix.Some? && name == config.modelPrefix.value + "." + rest ==>
      Candidate(config, name) == rest
    ensures Candidate(config, name) != name ==>
      config.modelPrefix.Some? && name == config.modelPrefix.value + "." + Candidate(config, name)
  {
  }

  function MatchFamily(family: string, parts: seq<string>): Option<nat> {
    var familyParts := Split(family);
    if |parts| <= |familyParts| then None
    else if parts[..|familyParts|] != familyParts then None
    else
      var idx := parts[|familyParts|];
      if idx != "" && AllDigits(idx) then ParseU64(idx) else None
  }

  function MatchFamilies(families: seq<string>, parts: seq<string>): Option<(string, nat)> {
    if families == [] then None
    else
      match MatchFamily(families[0], parts)
      case Some(idx) => Some((families[0], idx))
      case None => MatchFamilies(families[1..], parts)
  }

  function MatchName(config: BlockConfig, name: string): Option<(string, nat)> {
    MatchFamilies(config.families, Split(Candidate(config, name)))
  }

  function BlockId(family: string, index: nat): string {
    family + "." + Decimal(index)
  }

  /** `name` is `family.digits` or goes on with a dot after the digits, which read as `index`. */
  ghost predicate Belongs(family: string, index: nat, name: string) {
    exists digits :: BelongsBy(family, digits, name) && Value(digits) == index && index < U64_LIMIT
  }

  ghost predicate BelongsBy(family: string, digits: string, name: string) {
    && digits != "" && AllDigits(digits)
    && (name == family + "." + digits || family + "." + digits + "." <= name)
  }

  lemma SplitBelonging(family: string, digits: string, name: string)
    requires BelongsBy(family, digits, name)
    ensures Leads(family, name) && Split(name)[|Split(family)|] == digits
  {
    SplitDotless(digits);
    if name == family + "." + digits {
      SplitJoined(family, digits);
    } else {
      var rest := name[|family| + |digits| + 2..];
      assert name == family + "." + (digits + "." + rest);
      SplitJoined(family, digits + "." + rest);
      SplitJoined(digits, rest);
    }
  }

  /** A family matches exactly the names `family.index` and `family.index.rest`:
      index 1 never matches a name with index 10. */
  lemma MatchesExactly(family: string, name: string, index: nat)
    ensures MatchFamily(family, Split(name)) == Some(index) <==> Belongs(family, index, name)
  {
    if MatchFamily(family, Split(name)) == Some(index) {
      LeadingParts(family, name);
      var rest := name[|family| + 1..];
      var digits := Split(rest)[0];
      assert digits == Split(name)[|Split(family)|];
      FirstPart(rest);
      assert BelongsBy(family, digits, name);
    }
    if Belongs(family, index, name) {
      var digits :| BelongsBy(family, digits, name) && Value(digits) == index && index < U64_LIMIT;
      SplitBelonging(family, digits, name);
    }
  }

  ghost predicate Unclaimed(families: seq<string>, candidate: string) {
    forall f, n :: f in families ==> !Belongs(f, n, candidate)
  }

  /** The first family the candidate belongs to is `family`, with this index. */
  ghost predicate Claims(families: seq<string>, family: string, index: nat, candidate: string) {
    && Belongs(family, index, candidate)
    && exists k :: 0 <= k < |families| && families[k] == family && Unclaimed(families[..k], candidate)
  }

  lemma ClaimsHead(families: seq<string>, family: string, index: nat, candidate: string)
    requires families != []
    requires Belongs(family, index, candidate)
    ensures Claims(families, family, index, candidate) <==>
      families[0] == family || (Unclaimed([families[0]], candidate) && Claims(families[1..], family, index, candidate))
  {
    if families[0] == family {
      assert families[0] == family && Unclaimed(families[..0], candidate);
    }
    if Claims(families, family, index, candidate) && families[0] != family {
      var k :| 0 <= k < |families| && families[k] == family && Unclaimed(families[..k], candidate);
      assert families[0] in families[..k] && families[1..][k - 1] == family;
      assert families[..k] == [families[0]] + families[1..][..k - 1];
      assert Unclaimed(families[1..][..k - 1], candidate);
    }
    if Unclaimed([families[0]], candidate) && Claims(families[1..], family, index, candidate) {
      var k :| 0 <= k < |families[1..]| && families[1..][k] == family && Unclaimed(families[1..][..k], candidate);
      assert families[..k + 1] == [families[0]] + families[1..][..k];
      assert families[k + 1] == family && Unclaimed(families[..k + 1], candidate);
    }
  }

  lemma FamilyUnclaimed(family: string, candidate: string)
    ensures MatchFamily(family, Split(candidate)).None? <==> Unclaimed([family], candidate)
  {
    var first := MatchFamily(family, Split(candidate));
    if first.Some? {
      MatchesExactly(family, candidate, first.value);
      assert family in [family];
    }
    forall n | first.None? ensures !Belongs(family, n, candidate) {
      MatchesExactly(family, candidate, n);
    }
  }

  lemma {:induction false} FamiliesMatch(families: seq<string>, candidate: string, family: string, index: nat)
    ensures MatchFamilies(families, Split(candidate)) == Some((family, index))
      <==> Claims(families, family, index, candidate)
  {
    if families != [] {
      MatchesExactly(families[0], candidate, index);
      MatchesExactly(family, candidate, index);
      FamilyUnclaimed(families[0], candidate);
      FamiliesMatch(families[1..], candidate, family, index);
      if Belongs(family, index, candidate) {
        ClaimsHead(families, family, index, candidate);
      }
    }
  }

  /** A tensor is matched to a family and index exactly when its name, without
      the prefix, spells them and no earlier family's. */
  lemma MatchNameMeans(config: BlockConfig, name: string, family: string, index: nat)
    ensures MatchName(config, name) == Some((family, index)) <==>
      Claims(config.families, family, index, Candidate(config, name))
  {
    FamiliesMatch(config.families, Candidate(config, name), family, index);
  }

  lemma MatchedInFamilies(config: BlockConfig, name: string)
    requires MatchName(config, name).Some?
    ensures MatchName(config, name).value.0 in config.families && MatchName(config, name).value.1 < U64_LIMIT
  {
    var (family, index) := MatchName(config, name).value;
    MatchNameMeans(config, name, family, index);
  }

  /** Block ids determine family and index, whatever dots the family contains,
      and none is the unassigned block's. */
  lemma BlockIdInjective(family: string, index: nat, family': string, index': nat)
    ensures BlockId(family, index) == BlockId(family', index') ==> family == family' && index == index'
    ensures BlockId(family, index) != UNASSIGNED
  {
    DecimalReads(index);
    DecimalReads(index');
    if BlockId(family, index) == BlockId(family', index') {
      LastDot(family, Decimal(index), family', Decimal(index'));
    }
    UnassignedIsDotless();
    assert BlockId(family, index)[|family|] == '.';
  }

  /** Splitting an id at its last dot, as hooks are attached, gives back the family
      and the index. */
  lemma IdFindsModule(family: string, index: nat)
    ensures var parts := RSplit(BlockId(family, index));
      parts.Some? && parts.value.0 == family && AllDigits(parts.value.1) && Value(parts.value.1) == index
  {
    DecimalReads(index);
    RSplitLastDot(family, Decimal(index));
  }

  lemma UnassignedIsDotless()
    ensures Dotless(UNASSIGNED)
  {
  }

  /** A tensor named after a block id, behind the prefix if one is configured,
      belongs to that block unless an earlier family claims it. */
  lemma NamedAfterBlock(config: BlockConfig, k: nat, index: nat, rest: string, name: string)
    requires k < |config.families| && index < U64_LIMIT
    requires Candidate(config, name) == BlockId(config.families[k], index) + "." + rest
    requires Unclaimed(config.families[..k], Candidate(config, name))
    ensures MatchName(config, name) == Some((config.families[k], index))
  {
    DecimalReads(index);
    assert BelongsBy(config.families[k], Decimal(index), Candidate(config, name));
    MatchNameMeans(config, name, config.families[k], index);
  }
}
