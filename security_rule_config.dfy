/**
 * `Set-AzureRmNetworkSecurityRuleConfig`: checks that an address prefix and
 * application security groups are not given together, finds the one rule of
 * a network security group with the given name (ignoring case), overwrites
 * that rule's settings in place, and writes the same group object.
 */
module SecurityRuleConfig {
  import opened Results
  import opened Text

  /** The settings the cmdlet overwrites, all nullable as in the rule object. */
  datatype RuleSettings = RuleSettings(
    description: Option<string>,
    protocol: Option<string>,
    sourcePortRange: Option<string>,
    destinationPortRange: Option<string>,
    sourceAddressPrefix: Option<string>,
    destinationAddressPrefix: Option<string>,
    access: Option<string>,
    priority: Option<int>,
    direction: Option<string>)

  class SecurityRule {
    var name: Option<string>
    var description: Option<string>
    var protocol: Option<string>
    var sourcePortRange: Option<string>
    var destinationPortRange: Option<string>
    var sourceAddressPrefix: Option<string>
    var destinationAddressPrefix: Option<string>
    var access: Option<string>
    var priority: Option<int>
    var direction: Option<string>

    function Settings(): RuleSettings
      reads this
    {
      RuleSettings(description, protocol, sourcePortRange, destinationPortRange,
                   sourceAddressPrefix, destinationAddressPrefix, access, priority, direction)
    }

    /** Overwrites every setting; the name stays. */
    method Overwrite(s: RuleSettings)
      modifies this
      ensures Settings() == s && name == old(name)
    {
      description := s.description;
      protocol := s.protocol;
      sourcePortRange := s.sourcePortRange;
      destinationPortRange := s.destinationPortRange;
      sourceAddressPrefix := s.sourceAddressPrefix;
      destinationAddressPrefix := s.destinationAddressPrefix;
      access := s.access;
      priority := s.priority;
      direction := s.direction;
    }
  }

  class NetworkSecurityGroup {
    var securityRules: seq<SecurityRule>
  }

  /**
   * The cmdlet's parameters. Application security groups count only by
   * whether they were given.
   */
  datatype RuleParameters = RuleParameters(
    name: string,
    settings: RuleSettings,
    sourceApplicationSecurityGroupGiven: bool,
    sourceApplicationSecurityGroupIdGiven: bool,
    destinationApplicationSecurityGroupGiven: bool,
    destinationApplicationSecurityGroupIdGiven: bool)

  /**
   * The mutual-exclusion checks, in the order the cmdlet makes them. They
   * accept exactly the parameters where each side gives either a non-blank
   * address prefix or application security groups, not both.
   */
  function CheckExclusions(p: RuleParameters): (r: Result<()>)
    ensures r.Success? <==>
      && (IsNullOrWhiteSpace(p.settings.sourceAddressPrefix)
          || (!p.sourceApplicationSecurityGroupGiven && !p.sourceApplicationSecurityGroupIdGiven))
      && (IsNullOrWhiteSpace(p.settings.destinationAddressPrefix)
          || (!p.destinationApplicationSecurityGroupGiven && !p.destinationApplicationSecurityGroupIdGiven))
    ensures r.Failure? ==> r.error == ArgumentException
  {
    var sourcePrefix := !IsNullOrWhiteSpace(p.settings.sourceAddressPrefix);
    var destinationPrefix := !IsNullOrWhiteSpace(p.settings.destinationAddressPrefix);
    if sourcePrefix && p.sourceApplicationSecurityGroupGiven then Failure(ArgumentException)
    else if sourcePrefix && p.sourceApplicationSecurityGroupIdGiven then Failure(ArgumentException)
    else if destinationPrefix && p.destinationApplicationSecurityGroupGiven then Failure(ArgumentException)
    else if destinationPrefix && p.destinationApplicationSecurityGroupIdGiven then Failure(ArgumentException)
    else Success(())
  }

  /** `string.Equals(ruleName, name, IgnoreCase)`: a rule without a name matches nothing. */
  predicate NameMatches(ruleName: Option<string>, name: string) {
    ruleName.Some? && EqualsIgnoreCase(ruleName.value, name)
  }

  /** What `SingleOrDefault` finds: no element, exactly one (at `index`), or several. */
  datatype Match = NoMatch | OneMatch(index: nat) | ManyMatches

  /**
   * `SingleOrDefault` over the rule names: the position of the only rule
   * whose name matches, no match, or more than one.
   */
  function SingleMatch(names: seq<Option<string>>, name: string): (r: Match)
    ensures r.NoMatch? <==> forall i | 0 <= i < |names| :: !NameMatches(names[i], name)
    ensures r.OneMatch? ==>
      && r.index < |names| && NameMatches(names[r.index], name)
      && forall j | 0 <= j < |names| && j != r.index :: !NameMatches(names[j], name)
    ensures r.ManyMatches? <==>
      exists i, j | 0 <= i < j < |names| :: NameMatches(names[i], name) && NameMatches(names[j], name)
    decreases |names|
  {
    if |names| == 0 then NoMatch
    else
      var rest := SingleMatch(names[1..], name);
      assert forall i | 1 <= i < |names| :: names[1..][i - 1] == names[i];
      if NameMatches(names[0], name) then
        if rest.NoMatch? then OneMatch(0)
        else
          assert exists i, j | 0 <= i < j < |names| :: NameMatches(names[i], name) && NameMatches(names[j], name) by {
            var k: nat;
            if rest.OneMatch? {
              k := rest.index;
            } else {
              var i, j :| 0 <= i < j < |names[1..]| && NameMatches(names[1..][i], name) && NameMatches(names[1..][j], name);
              k := i;
            }
            assert NameMatches(names[0], name) && NameMatches(names[k + 1], name);
          }
          ManyMatches
      else
        match rest
        case NoMatch => NoMatch
        case OneMatch(i) => OneMatch(i + 1)
        case ManyMatches =>
          assert exists i, j | 0 <= i < j < |names| :: NameMatches(names[i], name) && NameMatches(names[j], name) by {
            var i, j :| 0 <= i < j < |names[1..]| && NameMatches(names[1..][i], name) && NameMatches(names[1..][j], name);
            assert NameMatches(names[i + 1], name) && NameMatches(names[j + 1], name);
          }
          ManyMatches
  }

  /** Names that are equal ignoring case find the same rule. */
  lemma {:induction false} SingleMatchIgnoresCase(names: seq<Option<string>>, a: string, b: string)
    requires EqualsIgnoreCase(a, b)
    ensures SingleMatch(names, a) == SingleMatch(names, b)
    decreases |names|
  {
    if |names| > 0 {
      SingleMatchIgnoresCase(names[1..], a, b);
      if names[0].Some? {
        if EqualsIgnoreCase(names[0].value, a) {
          EqualsIgnoreCaseTransitive(names[0].value, a, b);
        }
        if EqualsIgnoreCase(names[0].value, b) {
          EqualsIgnoreCaseSymmetric(a, b);
          EqualsIgnoreCaseTransitive(names[0].value, b, a);
        }
      }
    }
  }

  /** Rule names that are distinct ignoring case never make the lookup ambiguous. */
  lemma DistinctNamesNeverAmbiguous(names: seq<Option<string>>, name: string)
    requires forall i, j | 0 <= i < j < |names| && names[i].Some? && names[j].Some? ::
      !EqualsIgnoreCase(names[i].value, names[j].value)
    ensures !SingleMatch(names, name).ManyMatches?
  {
  }

  /** The names of the rules, in order. */
  function RuleNames(rules: seq<SecurityRule>): (r: seq<Option<string>>)
    reads set rule | rule in rules
    ensures |r| == |rules| && forall i | 0 <= i < |rules| :: r[i] == rules[i].name
  {
    if |rules| == 0 then [] else [rules[0].name] + RuleNames(rules[1..])
  }

  /**
   * `Set-AzureRmNetworkSecurityRuleConfig`. An empty `-Name` fails parameter
   * validation; conflicting prefix and group parameters fail with
   * ArgumentException; no rule of that name fails with ArgumentException, and
   * several fail in `SingleOrDefault`. Otherwise the matching rule's settings
   * become the parameters' and every other rule stays as it was; the output
   * is the group itself.
   */
  method SetRuleConfig(nsg: NetworkSecurityGroup, p: RuleParameters) returns (r: Result<NetworkSecurityGroup>)
    modifies set rule | rule in nsg.securityRules
    ensures nsg.securityRules == old(nsg.securityRules)
    ensures (p.name == "" || CheckExclusions(p).Failure?) ==> unchanged(set rule | rule in nsg.securityRules)
    ensures p.name == "" ==> r == Failure(ParameterValidationException)
    ensures p.name != "" && CheckExclusions(p).Failure? ==> r == Failure(ArgumentException)
    ensures p.name != "" && CheckExclusions(p).Success? ==>
      var rules := nsg.securityRules;
      match SingleMatch(old(RuleNames(nsg.securityRules)), p.name)
      case NoMatch => r == Failure(ArgumentException) && unchanged(set rule | rule in rules)
      case ManyMatches => r == Failure(InvalidOperationException) && unchanged(set rule | rule in rules)
      case OneMatch(i) =>
        && r == Success(nsg)
        && rules[i].name == old(rules[i].name)
        && rules[i].Settings() == p.settings
        && forall j | 0 <= j < |rules| && j != i :: unchanged(rules[j])
  {
    if p.name == "" {
      return Failure(ParameterValidationException);
    }
    var checked := CheckExclusions(p);
    if checked.Failure? {
      return Failure(checked.error);
    }
    var names := RuleNames(nsg.securityRules);
    var found := SingleMatch(names, p.name);
    match found
    case NoMatch =>
      return Failure(ArgumentException);
    case ManyMatches =>
      return Failure(InvalidOperationException);
    case OneMatch(i) =>
      var rule := nsg.securityRules[i];
      assert forall j | 0 <= j < |nsg.securityRules| && j != i :: nsg.securityRules[j] != rule by {
        forall j | 0 <= j < |nsg.securityRules| && j != i
          ensures nsg.securityRules[j] != rule
        {
          assert names[j] == nsg.securityRules[j].name;
        }
      }
      rule.Overwrite(p.settings);
      r := Success(nsg);
  }
}
