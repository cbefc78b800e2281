/**
  The platform-name resolver of the cluster inspector, and the two queries
  that share the node listing: `Platform`, which resolves the first node's
  provider ID, and `Nodes`, which counts the nodes. The Kubernetes `List` call that fetches the cluster's
  nodes is not modelled: its outcome is a parameter, either the provider IDs
  of the listed nodes in list order or the error the call returned.
 */
module Inspector {
  import opened GoStrings

  /** What the inspector's queries return: a value, or an error message. */
  datatype Result<T> = Ok(value: T) | Err(msg: string)

  /** The label given to a provider ID that names no platform. */
  const Unknown: string := "unknown"

  /** The error `Platform` reports for a cluster without nodes. */
  const NoNodesError: string := "cannot verify platform name"

  /** The scheme of a provider ID: `s` up to its first ':', or all of `s`
      when it holds none. */
  function Scheme(s: string): (r: string)
    ensures ':' !in r
    ensures r == s <==> ':' !in s
    ensures r <= s
    ensures |r| < |s| ==> s[|r|] == ':'
  {
    s[..IndexOf(s, ':')]
  }

  /** The resolver (`platformName`): the lowercased scheme of the provider
      ID, or "unknown" when the ID is blank or its scheme is empty. The
      blank test looks at the trimmed ID, but the scheme is taken from the
      untrimmed one. The result is never empty, never holds ':' and never
      holds an upper-case ASCII letter; past the two "unknown" cases it is
      the scheme of the lowercased ID. */
  function PlatformName(providerID: string): (name: string)
    ensures name != []
    ensures ':' !in name
    ensures NoAsciiUpper(name)
    ensures Blank(providerID) ==> name == Unknown
    ensures name == Unknown || name <= ToLower(providerID)
    ensures Scheme(ToLower(providerID)) == [] ==> name == Unknown
    ensures !Blank(providerID) && Scheme(ToLower(providerID)) != [] ==>
      name == Scheme(ToLower(providerID))
  {
    var provider := TrimSpace(providerID);
    assert NoAsciiUpper(Unknown) && Unknown != [] && ':' !in Unknown;
    if provider == [] then Unknown
    else
      var lowered := ToLower(providerID);
      var p := Split(lowered, ':');
      if |p| == 0 then Unknown
      else if p[0] == [] then Unknown
      else
        FirstPieceFacts(providerID);
        p[0]
  }

  /** The first piece of the lowercased ID is a prefix of it that holds
      neither ':' nor an upper-case letter. */
  lemma FirstPieceFacts(s: string)
    ensures Split(ToLower(s), ':')[0] <= ToLower(s)
    ensures ':' !in Split(ToLower(s), ':')[0]
    ensures NoAsciiUpper(Split(ToLower(s), ':')[0])
  {
    var lowered := ToLower(s);
    assert Split(lowered, ':')[0] == lowered[..IndexOf(lowered, ':')];
    assert NoAsciiUpper(lowered);
  }

  /** The whole behaviour of the resolver in one statement, against the
      independent definitions `Blank` and `Scheme`. */
  lemma PlatformNameMeaning(s: string)
    ensures PlatformName(s) ==
      if Blank(s) || Scheme(ToLower(s)) == [] then Unknown else Scheme(ToLower(s))
  {
  }

  /** An empty or white-space-only provider ID resolves to "unknown". */
  lemma BlankIsUnknown(s: string)
    requires Blank(s)
    ensures PlatformName(s) == Unknown
  {
  }

  /** A provider ID that starts with ':' has an empty scheme and resolves to
      "unknown". */
  lemma LeadingColonIsUnknown(s: string)
    requires |s| > 0 && s[0] == ':'
    ensures PlatformName(s) == Unknown
  {
    assert !Blank(s) by {
      assert !IsSpace(s[0]);
    }
    assert ToLower(s)[0] == ':';
    assert IndexOf(ToLower(s), ':') == 0;
  }

  /** A provider ID `<scheme>:<rest>` with a non-empty scheme resolves to
      the lowercased scheme, white space and all. */
  lemma SchemeIsLowercased(scheme: string, rest: string)
    requires scheme != [] && ':' !in scheme
    ensures PlatformName(scheme + ":" + rest) == ToLower(scheme)
  {
    var s := scheme + ":" + rest;
    var n := |scheme|;
    assert s[n] == ':' && !IsSpace(s[n]);
    var lowered := ToLower(s);
    assert lowered == ToLower(scheme) + ":" + ToLower(rest);
    ToLowerKeepsNonLetters(scheme, ':');
    assert ':' !in ToLower(scheme) by {
      forall k | 0 <= k < n ensures ToLower(scheme)[k] != ':' {
        assert scheme[k] != ':';
      }
    }
    IndexOfAfterPiece(ToLower(scheme), ':', ToLower(rest));
    assert lowered[..n] == ToLower(scheme);
  }

  /** A provider ID with no ':' that is not blank resolves to the whole
      lowercased ID, not to "unknown" ("//uuid" gives "//uuid"). */
  lemma NoColonPassesThrough(s: string)
    requires ':' !in s && !Blank(s)
    ensures PlatformName(s) == ToLower(s)
  {
    var lowered := ToLower(s);
    ToLowerKeepsNonLetters(s, ':');
    assert ':' !in lowered by {
      forall k | 0 <= k < |s| ensures lowered[k] != ':' {
        assert s[k] != ':';
      }
    }
    assert lowered != [];
  }

  /** Resolving a resolved name again gives it back unchanged, as long as
      the name holds something other than white space. */
  lemma PlatformNameIdempotent(s: string)
    requires !Blank(PlatformName(s))
    ensures PlatformName(PlatformName(s)) == PlatformName(s)
  {
    var name := PlatformName(s);
    ToLowerIdentity(name);
    NoColonPassesThrough(name);
  }

  /** A name made only of white space (" " from " :x") resolves to
      "unknown" the second time. */
  lemma BlankNameResolvesToUnknown(s: string)
    requires Blank(PlatformName(s))
    ensures PlatformName(PlatformName(s)) == Unknown
  {
    BlankIsUnknown(PlatformName(s));
  }

  /** The guard on an empty split (`len(p) == 0`) never fires: the lowered
      provider ID always splits into at least one piece, so only the blank
      test and the empty-scheme test can give "unknown". */
  lemma EmptySplitUnreachable(s: string)
    ensures |Split(ToLower(s), ':')| >= 1
    ensures PlatformName(s) ==
      if Blank(s) || Split(ToLower(s), ':')[0] == [] then Unknown else Split(ToLower(s), ':')[0]
  {
  }

  /** Typical provider IDs that resolve to "unknown". */
  lemma UnknownExamples()
    ensures PlatformName("") == Unknown
    ensures PlatformName(" ") == Unknown
    ensures PlatformName("://4232e3c7") == Unknown
  {
    BlankIsUnknown(" ");
    LeadingColonIsUnknown("://4232e3c7");
  }

  /** Typical provider IDs with a scheme: the scheme is the result.

      The IDs are written as scheme, ':' and rest joined, and each one is
      proved by a helper lemma of its own: a whole string literal makes the
      verifier evaluate the string functions on it character by character,
      which costs far more than the general lemmas applied to the pieces. */
  lemma SchemeExamples()
    ensures PlatformName("aws" + ":" + "///eu-central-1a/i-088b4f07708408cc0") == "aws"
    ensures PlatformName("kind" + ":" + "//docker/local/local-control-plane") == "kind"
    ensures PlatformName("vsphere" + ":" + "//4232e3c7") == "vsphere"
  {
    AwsExample();
    KindExample();
    VsphereExample();
  }

  lemma AwsExample()
    ensures PlatformName("aws" + ":" + "///eu-central-1a/i-088b4f07708408cc0") == "aws"
  {
    LowerSchemeExample("aws", "///eu-central-1a/i-088b4f07708408cc0");
  }

  lemma KindExample()
    ensures PlatformName("kind" + ":" + "//docker/local/local-control-plane") == "kind"
  {
    LowerSchemeExample("kind", "//docker/local/local-control-plane");
  }

  lemma VsphereExample()
    ensures PlatformName("vsphere" + ":" + "//4232e3c7") == "vsphere"
  {
    LowerSchemeExample("vsphere", "//4232e3c7");
  }

  lemma LowerSchemeExample(scheme: string, rest: string)
    requires scheme != [] && ':' !in scheme && NoAsciiUpper(scheme)
    ensures PlatformName(scheme + ":" + rest) == scheme
  {
    SchemeIsLowercased(scheme, rest);
    ToLowerIdentity(scheme);
  }

  /** The quirks kept from the source: an ID without ':' passes through
      whole, and the scheme keeps the white space around it. (Written and
      proved piecewise for the same reason as `SchemeExamples`.) */
  lemma QuirkExamples()
    ensures PlatformName("//uuid") == "//uuid"
    ensures PlatformName(" AWS" + ":" + "x") == " aws"
    ensures PlatformName(" " + ":" + "x") == " "
  {
    NoColonExample();
    SpacedSchemeExample();
    BlankSchemeExample();
  }

  lemma SpacedSchemeExample()
    ensures PlatformName(" AWS" + ":" + "x") == " aws"
  {
    SchemeIsLowercased(" AWS", "x");
    LowerSpacedAws();
  }

  lemma BlankSchemeExample()
    ensures PlatformName(" " + ":" + "x") == " "
  {
    LowerSchemeExample(" ", "x");
  }

  lemma NoColonExample()
    ensures PlatformName("//uuid") == "//uuid"
  {
    LowerNoColonExample("//uuid");
  }

  lemma LowerNoColonExample(s: string)
    requires s != [] && !IsSpace(s[0]) && ':' !in s && NoAsciiUpper(s)
    ensures PlatformName(s) == s
  {
    NoColonPassesThrough(s);
    ToLowerIdentity(s);
  }

  lemma LowerSpacedAws()
    ensures ToLower(" AWS") == " aws"
  {
    var l := ToLower(" AWS");
    assert l[0] == ' ' && l[1] == 'a' && l[2] == 'w' && l[3] == 's';
  }

  /** `Platform`: the platform of the cluster is the resolved provider ID of
      the first listed node. A failed listing passes its error on, and an
      empty listing is an error. */
  function Platform(listed: Result<seq<string>>): (r: Result<string>)
    ensures listed.Err? ==> r == Err(listed.msg)
    ensures listed.Ok? ==> (r.Err? <==> |listed.value| == 0)
    ensures listed.Ok? && r.Err? ==> r.msg == NoNodesError
    ensures r.Ok? ==> r.value == PlatformName(listed.value[0])
  {
    match listed
    case Err(msg) => Err(msg)
    case Ok(nodes) =>
      if |nodes| == 0 then Err(NoNodesError)
      else Ok(PlatformName(nodes[0]))
  }

  /** `Nodes`: the number of listed nodes, or the listing's error. */
  function Nodes(listed: Result<seq<string>>): (r: Result<nat>)
    ensures listed.Err? ==> r == Err(listed.msg)
    ensures listed.Ok? ==> r == Ok(|listed.value|)
  {
    match listed
    case Err(msg) => Err(msg)
    case Ok(nodes) => Ok(|nodes|)
  }

  /** Only the first node decides the platform: the nodes after it do not
      matter. */
  lemma PlatformIgnoresLaterNodes(first: string, later: seq<string>, other: seq<string>)
    ensures Platform(Ok([first] + later)) == Platform(Ok([first] + other))
    ensures Platform(Ok([first] + later)) == Ok(PlatformName(first))
  {
  }

  /** `Platform` succeeds exactly when `Nodes` reports at least one node, and
      its result is then a non-empty name without ':'. */
  lemma PlatformOkIffNodes(listed: Result<seq<string>>)
    ensures Platform(listed).Ok? <==> Nodes(listed).Ok? && Nodes(listed).value > 0
    ensures Platform(listed).Ok? ==> Platform(listed).value != [] && ':' !in Platform(listed).value
  {
  }
}
