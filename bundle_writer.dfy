/** `FhirBundleWriter.buildResources` (and its copy `FhirTransfer.buildResources`): a FHIR
    transaction Bundle with one PUT entry per resource. The fresh bundle id
    (`UUID.randomUUID()`) is a parameter. */
module BundleWriter {
  import opened Fhir

  datatype BundleType = Transaction

  datatype Verb = Put

  datatype Request = Request(url: string, verb: Verb)

  datatype Entry = Entry(fullUrl: JString, resource: Resource, request: Request)

  datatype Bundle = Bundle(id: string, kind: BundleType, entry: seq<Entry>)

  /** `pat` occurs in `s` at index `k`. */
  predicate At(s: string, pat: string, k: int)
  {
    0 <= k && k + |pat| <= |s| && s[k..k + |pat|] == pat
  }

  /** `s.indexOf(pat, from)`: the first occurrence of `pat` at or after `from`, or -1. */
  function IndexOf(s: string, pat: string, from: nat): (k: int)
    ensures k == -1 || (from <= k && At(s, pat, k))
    ensures forall j | from <= j && (k == -1 || j < k) :: !At(s, pat, j)
    decreases |s| - from
  {
    if from + |pat| > |s| then -1
    else if s[from..from + |pat|] == pat then from
    else IndexOf(s, pat, from + 1)
  }

  /** `s.lastIndexOf('/', upto - 1)`: the last slash before index `upto`, or -1. */
  function LastSlash(s: string, upto: nat): (k: int)
    requires upto <= |s|
    ensures -1 <= k < upto && (k >= 0 ==> s[k] == '/')
    ensures forall j | k < j < upto :: s[j] != '/'
  {
    if upto == 0 then -1
    else if s[upto - 1] == '/' then upto - 1
    else LastSlash(s, upto - 1)
  }

  const History := "/_history/"

  /** `getIdElement().getIdPart()`, as HAPI's `IdType` parses an id value: no part for a
      `null` or blank value; a local reference ("#...") or a URN is its own id part;
      otherwise a "/_history/..." suffix is cut off and the id part is what follows the
      last slash before it. */
  function IdPart(value: JString): JString
  {
    if value == None || |value.value| == 0 || Blank(value.value) then None
    else
      var v := value.value;
      if v[0] == '#' && |v| > 1 then Some(v)
      else if |v| >= 4 && v[..4] == "urn:" then Some(v)
      else
        var h := IndexOf(v, History, 0);
        if h >= 0 then Some(v[LastSlash(v, h) + 1..h])
        else Some(v[LastSlash(v, |v|) + 1..])
  }

  /** An id as a server hands it out: not blank, no slash, not a local reference. */
  predicate PlainId(x: string)
  {
    |x| > 0 && x[0] != '#' && !Blank(x) && forall i | 0 <= i < |x| :: x[i] != '/'
  }

  /** A plain id is its own id part. */
  lemma PlainIdPart(x: string)
    requires PlainId(x) && !(|x| >= 4 && x[..4] == "urn:")
    ensures IdPart(Some(x)) == Some(x)
  {
    forall j | 0 <= j && j + |History| <= |x|
      ensures !At(x, History, j)
    {
      assert x[j..j + |History|][0] == x[j];
    }
    var h := IndexOf(x, History, 0);
    assert h == -1;
    var k := LastSlash(x, |x|);
    assert k == -1;
    assert x[k + 1..] == x;
  }

  /** A qualified id "<prefix>/<id>" without a version part has the plain id as id part. */
  lemma QualifiedIdPart(prefix: string, x: string)
    requires PlainId(x)
    requires var v := prefix + "/" + x; v[0] != '#' && !(|v| >= 4 && v[..4] == "urn:")
    requires forall j :: !At(prefix + "/" + x, History, j)
    ensures IdPart(Some(prefix + "/" + x)) == Some(x)
  {
    var v := prefix + "/" + x;
    assert !Blank(v) by {
      assert v[|prefix|] == '/';
    }
    assert IndexOf(v, History, 0) == -1;
    LastSlashOf(prefix, x);
  }

  /** The last slash of "<prefix>/<id>" is the one before the id. */
  lemma LastSlashOf(prefix: string, x: string)
    requires forall i | 0 <= i < |x| :: x[i] != '/'
    ensures var v := prefix + "/" + x; LastSlash(v, |v|) == |prefix| && v[|prefix| + 1..] == x
  {
    var v := prefix + "/" + x;
    assert v[|prefix|] == '/';
    assert forall i | 0 <= i < |x| :: v[|prefix| + 1 + i] == x[i];
    assert v[|prefix| + 1..] == x;
  }

  /** The entry a resource gets: its id value as full URL, and a PUT of
      "<type>/<id part>" (a missing id part is printed as "null"). */
  function EntryFor(r: Resource): Entry
  {
    Entry(r.Id(), r, Request(r.TypeName() + "/" + Printed(IdPart(r.Id())), Put))
  }

  /** A resource with a plain id is PUT to "<type>/<id>". */
  lemma PlainIdRequest(r: Resource)
    requires r.Id().Some? && PlainId(r.Id().value) && !(|r.Id().value| >= 4 && r.Id().value[..4] == "urn:")
    ensures EntryFor(r).fullUrl == r.Id()
    ensures EntryFor(r).request == Request(r.TypeName() + "/" + r.Id().value, Put)
  {
    PlainIdPart(r.Id().value);
  }

  /** One entry per resource, in order. */
  function Entries(resources: seq<Resource>): (es: seq<Entry>)
    ensures |es| == |resources|
    ensures forall k | 0 <= k < |es| :: es[k] == EntryFor(resources[k])
    decreases |resources|
  {
    if resources == [] then []
    else Entries(resources[..|resources| - 1]) + [EntryFor(resources[|resources| - 1])]
  }

  /** The bundle `buildResources` returns: a transaction with the given id whose entries
      correspond one-to-one, and in order, to the resources; none for an empty list. */
  function BundleOf(id: string, resources: seq<Resource>): (b: Bundle)
    ensures b.id == id && b.kind == Transaction
    ensures |b.entry| == |resources|
    ensures forall k | 0 <= k < |resources| :: b.entry[k].resource == resources[k]
    ensures forall k | 0 <= k < |resources| :: b.entry[k] == EntryFor(resources[k])
  {
    Bundle(id, Transaction, Entries(resources))
  }

  /** `buildResources`: the loop appends an entry per resource to a fresh transaction bundle.
      (Its `catch (Error e)` guards against JVM errors only, which the model does not have.) */
  method BuildResources(resources: seq<Resource>, uuid: string) returns (b: Bundle)
    ensures b == BundleOf(uuid, resources)
  {
    b := Bundle(uuid, Transaction, []);
    for i := 0 to |resources|
      invariant b == Bundle(uuid, Transaction, Entries(resources[..i]))
    {
      assert resources[..i + 1][..i] == resources[..i];
      b := b.(entry := b.entry + [EntryFor(resources[i])]);
    }
    Whole(resources);
  }
}
