/** Class `BiobankMapping`: captures a biobank Organization of either profile and emits it
    under the other profile, translating the description extension, the contact roles and
    the contact purposes. The output differs between directions only in constants, so one
    `Side` parameter (the profile written) stands for both `toBbmri` and `toMii`. */
module BiobankMapping {
  import opened Fhir

  const MiiDescriptionUrl :=
    "https://www.medizininformatik-initiative.de/fhir/ext/modul-biobank/StructureDefinition/BeschreibungSammlung"
  const BbmriDescriptionUrl := "https://fhir.bbmri.de/StructureDefinition/OrganizationDescription"
  const BbmriIdSystem := "http://www.bbmri-eric.eu/"
  const KontaktRolleUrl :=
    "https://www.medizininformatik-initiative.de/fhir/ext/modul-biobank/StructureDefinition/KontaktRolle"
  const ContactRoleUrl := "https://fhir.bbmri.de/StructureDefinition/ContactRole"

  /** The two profiles an Organization is read from or written to. */
  datatype Side = Bbmri | Mii

  function Other(side: Side): Side
  {
    if side == Bbmri then Mii else Bbmri
  }

  function DescriptionUrl(side: Side): string
  {
    if side == Bbmri then BbmriDescriptionUrl else MiiDescriptionUrl
  }

  function BiobankProfile(side: Side): string
  {
    if side == Bbmri then "https://fhir.bbmri.de/StructureDefinition/Biobank"
    else "https://www.medizininformatik-initiative.de/fhir/ext/modul-biobank/StructureDefinition/Organization"
  }

  /** The URL of the contact-role extension on each side. */
  function RoleUrl(side: Side): string
  {
    if side == Bbmri then ContactRoleUrl else KontaktRolleUrl
  }

  /** The director role as each side spells it. */
  function DirectorRole(side: Side): string
  {
    if side == Bbmri then "Director" else "Direktor"
  }

  function PurposeSystem(side: Side): string
  {
    if side == Bbmri then "http://terminology.hl7.org/CodeSystem/contactentity-type"
    else "https://www.medizininformatik-initiative.de/fhir/ext/modul-biobank/CodeSystem/ContactType"
  }

  /** The fields of a `BiobankMapping`; a Java field never assigned is `null`, so a list
      field is an `Option`. */
  datatype BiobankRecord = BiobankRecord(id: JString, bbmriId: JString, name: JString,
                                         contacts: Option<seq<Contact>>, alias: Option<seq<string>>,
                                         description: JString)

  const Fresh := BiobankRecord(None, None, None, None, None, None)

  // ---------------------------------------------------------------- capturing

  /** `getBbmriId`: the first identifier's value, when that identifier is under the BBMRI-ERIC
      system; otherwise the old value stays. */
  function BbmriIdOf(old_: JString, o: Organization): (r: JString)
    ensures FirstIdentifier(o.identifier).system == Some(BbmriIdSystem) ==> r == FirstIdentifier(o.identifier).value
    ensures FirstIdentifier(o.identifier).system != Some(BbmriIdSystem) ==> r == old_
  {
    var first := FirstIdentifier(o.identifier);
    if first.system.Some? && first.system.value == BbmriIdSystem then first.value else old_
  }

  /** One pass of the description loop: `getUrl().equals(…)` throws on a `null` URL, and
      the description is the primitive text of the value (`null` for a complex value). */
  function DescriptionExtension(side: Side, rec: BiobankRecord, e: Extension): Step<BiobankRecord, ()>
  {
    if e.url == None then Step(Thrown(NullPointer), rec)
    else if e.url.value == DescriptionUrl(side) then
      match PrimitiveValue(e.value)
      case Thrown(f) => Step(Thrown(f), rec)
      case Ok(text) => Step(Ok(()), rec.(description := text))
    else Step(Ok(()), rec)
  }

  function DescriptionStep(side: Side): (BiobankRecord, Extension) -> Step<BiobankRecord, ()>
  {
    (rec: BiobankRecord, e: Extension) => DescriptionExtension(side, rec, e)
  }

  /** `fromBbmri` (side `Bbmri`) and `fromMii` (side `Mii`): id, BBMRI-ERIC id, name and
      alias list, then the description of the side read, then the contact list; an exception
      in the description loop escapes before the contacts are stored. */
  function Capture(side: Side, rec: BiobankRecord, o: Organization): Step<BiobankRecord, ()>
  {
    var r := rec.(id := o.id, bbmriId := BbmriIdOf(rec.bbmriId, o), name := o.name, alias := Some(o.alias));
    var s := Scan(DescriptionStep(side), r, o.extension);
    if s.result.Thrown? then s else Step(Ok(()), s.after.(contacts := Some(o.contact)))
  }

  /** The text of the last description extension of `side` among `exts`, or `default`. */
  function LastDescription(side: Side, exts: seq<Extension>, default: JString): JString
    decreases |exts|
  {
    if exts == [] then default
    else
      var e := exts[|exts| - 1];
      if e.url == Some(DescriptionUrl(side)) && PrimitiveValue(e.value).Ok? then PrimitiveValue(e.value).value
      else LastDescription(side, exts[..|exts| - 1], default)
  }

  /** An extension the description loop stops on. */
  predicate DescriptionFault(side: Side, e: Extension)
  {
    e.url == None || (e.url == Some(DescriptionUrl(side)) && e.value == NoValue)
  }

  /** The description loop throws exactly on an extension without a URL, or a description
      without a value; otherwise it leaves the last description and changes nothing else. */
  lemma {:induction false} DescriptionLoop(side: Side, rec: BiobankRecord, exts: seq<Extension>)
    ensures var s := Scan(DescriptionStep(side), rec, exts);
            (s.result.Ok? <==> forall i | 0 <= i < |exts| :: !DescriptionFault(side, exts[i]))
            && (s.result.Ok? ==> s.after == rec.(description := LastDescription(side, exts, rec.description)))
    decreases |exts|
  {
    if exts != [] {
      var init := exts[..|exts| - 1];
      DescriptionLoop(side, rec, init);
      assert forall i | 0 <= i < |init| :: init[i] == exts[i];
    }
  }

  /** What a capture that does not throw keeps: the id, the name, the alias list, the
      contact list, the BBMRI-ERIC id and the last description of the side read. */
  lemma CaptureFields(side: Side, rec: BiobankRecord, o: Organization)
    ensures var s := Capture(side, rec, o);
            (s.result.Ok? <==> forall i | 0 <= i < |o.extension| :: !DescriptionFault(side, o.extension[i]))
            && (s.result.Ok? ==>
                  s.after == BiobankRecord(o.id, BbmriIdOf(rec.bbmriId, o), o.name, Some(o.contact), Some(o.alias),
                                           LastDescription(side, o.extension, rec.description)))
  {
    var r := rec.(id := o.id, bbmriId := BbmriIdOf(rec.bbmriId, o), name := o.name, alias := Some(o.alias));
    DescriptionLoop(side, r, o.extension);
  }

  // ---------------------------------------------------------------- contact roles

  /** The role extension of one contact, as rewritten in place when writing `target`: a
      role of the other side spelling the director its own way is respelled. The tests
      throw on a `null` URL, a missing value, and a value without primitive text. */
  function RenameRole(target: Side, e: Extension): Result<Extension>
  {
    if e.url == None then Thrown(NullPointer)
    else if e.url.value != RoleUrl(Other(target)) then Ok(e)
    else
      match PrimitiveValue(e.value)
      case Thrown(f) => Thrown(f)
      case Ok(text) =>
        if text == None then Thrown(NullPointer)
        else if text.value == DirectorRole(Other(target)) then Ok(e.(value := StringValue(DirectorRole(target))))
        else Ok(e)
  }

  /** Where the inner loop is: the contact's extensions already visited (with their rewrite),
      those still to visit, and the role extensions added to the output contact. */
  datatype RoleScan = RoleScan(done: seq<Extension>, pending: seq<Extension>, roles: seq<Extension>)

  function Tail<T>(s: seq<T>): seq<T>
  {
    if s == [] then [] else s[1..]
  }

  function RoleExtension(target: Side, s: RoleScan, e: Extension): Step<RoleScan, ()>
  {
    match RenameRole(target, e)
    case Thrown(f) => Step(Thrown(f), s)
    case Ok(renamed) =>
      var roles := if e.url == Some(RoleUrl(Other(target))) then s.roles + [Extension(Some(RoleUrl(target)), renamed.value)]
                   else s.roles;
      Step(Ok(()), RoleScan(s.done + [renamed], Tail(s.pending), roles))
  }

  function RoleStep(target: Side): (RoleScan, Extension) -> Step<RoleScan, ()>
  {
    (s: RoleScan, e: Extension) => RoleExtension(target, s, e)
  }

  /** Reference definitions: every extension of a list rewritten, and the role extensions
      of the output contact. */
  function Renamed(target: Side, e: Extension): Extension
  {
    if RenameRole(target, e).Ok? then RenameRole(target, e).value else e
  }

  function RoleOf(target: Side, e: Extension): seq<Extension>
  {
    if e.url == Some(RoleUrl(Other(target))) && RenameRole(target, e).Ok?
    then [Extension(Some(RoleUrl(target)), RenameRole(target, e).value.value)] else []
  }

  function Renaming(target: Side): Extension -> Extension
  {
    (e: Extension) => Renamed(target, e)
  }

  function RenameAll(target: Side, exts: seq<Extension>): (r: seq<Extension>)
    ensures |r| == |exts|
  {
    Mapped(Renaming(target), exts)
  }

  function RolesOf(target: Side, exts: seq<Extension>): seq<Extension>
    decreases |exts|
  {
    if exts == [] then [] else RolesOf(target, exts[..|exts| - 1]) + RoleOf(target, exts[|exts| - 1])
  }

  function Drop<T>(s: seq<T>, n: nat): seq<T>
  {
    if n >= |s| then [] else s[n..]
  }

  lemma DropNext<T>(s: seq<T>, n: nat)
    ensures Tail(Drop(s, n)) == Drop(s, n + 1)
  {
  }

  predicate RoleFault(target: Side, e: Extension)
  {
    RenameRole(target, e).Thrown?
  }

  /** The inner loop throws exactly on a faulty extension; otherwise it has visited every
      extension, rewritten each, and collected the role extensions. */
  lemma RoleLoopFaults(target: Side, start: RoleScan, exts: seq<Extension>)
    ensures Scan(RoleStep(target), start, exts).result.Ok? <==> forall i | 0 <= i < |exts| :: !RoleFault(target, exts[i])
  {
    ScanOk(RoleStep(target), (e: Extension) => RoleFault(target, e), start, exts);
  }

  /** One pass of the inner loop over an extension that is not faulty. */
  lemma RoleExtensionOk(target: Side, s: RoleScan, e: Extension)
    requires !RoleFault(target, e)
    ensures RoleExtension(target, s, e) == Step(Ok(()), RoleScan(s.done + [Renamed(target, e)], Tail(s.pending),
                                                                 s.roles + RoleOf(target, e)))
  {
    assert s.roles + [] == s.roles;
  }

  lemma {:induction false} RoleLoop(target: Side, start: RoleScan, exts: seq<Extension>)
    ensures var s := Scan(RoleStep(target), start, exts);
            s.result.Ok? ==>
              s.after == RoleScan(start.done + RenameAll(target, exts), Drop(start.pending, |exts|),
                                  start.roles + RolesOf(target, exts))
    decreases |exts|
  {
    if exts != [] {
      var init := exts[..|exts| - 1];
      var e := exts[|exts| - 1];
      RoleLoop(target, start, init);
      var s := Scan(RoleStep(target), start, init);
      if s.result.Ok? && !RoleFault(target, e) {
        RoleExtensionOk(target, s.after, e);
        DropNext(start.pending, |init|);
        MappedSnoc(Renaming(target), start.done, exts);
        assert start.roles + RolesOf(target, exts) == (start.roles + RolesOf(target, init)) + RoleOf(target, e);
      }
    }
  }

  // ---------------------------------------------------------------- contacts

  /** The contact written for a captured contact `c` once its roles are known: the purpose
      (ADMIN when a bbmri.de contact received a role, RESEARCH otherwise) under the
      target's code system, family and given names, telecoms, city, country, postal code
      and lines of the address, and the role extensions. */
  function Item(target: Side, c: Contact, roles: seq<Extension>): Contact
  {
    var purpose := if target == Bbmri && |roles| > 0 then "ADMIN" else "RESEARCH";
    Contact(Coded(PurposeSystem(target), Some(purpose)), HumanName(c.name.family, c.name.given, [], None), c.telecom,
            Address(c.address.city, c.address.country, c.address.postalCode, c.address.line, None, None), roles)
  }

  /** Where the outer loop is: the captured contacts already visited (with their rewritten
      extensions), those still to visit, and the contacts written so far. */
  datatype ContactScan = ContactScan(done: seq<Contact>, pending: seq<Contact>, items: seq<Contact>)

  function ContactStep(target: Side, s: ContactScan, c: Contact): Step<ContactScan, ()>
  {
    var inner := Scan(RoleStep(target), RoleScan([], c.extension, []), c.extension);
    Step(inner.result, ContactScan(s.done + [c.(extension := inner.after.done + inner.after.pending)], Tail(s.pending),
                                   s.items + [Item(target, c, inner.after.roles)]))
  }

  function ContactsStep(target: Side): (ContactScan, Contact) -> Step<ContactScan, ()>
  {
    (s: ContactScan, c: Contact) => ContactStep(target, s, c)
  }

  /** Reference definitions of the outer loop: the rewritten captured contacts, and the
      contacts written. */
  function ContactRenaming(target: Side): Contact -> Contact
  {
    (c: Contact) => c.(extension := RenameAll(target, c.extension))
  }

  function Itemizing(target: Side): Contact -> Contact
  {
    (c: Contact) => Item(target, c, RolesOf(target, c.extension))
  }

  function RenameContacts(target: Side, cs: seq<Contact>): (r: seq<Contact>)
    ensures |r| == |cs|
  {
    Mapped(ContactRenaming(target), cs)
  }

  function Items(target: Side, cs: seq<Contact>): (r: seq<Contact>)
    ensures |r| == |cs|
  {
    Mapped(Itemizing(target), cs)
  }

  /** One written contact per captured contact, in order; one rewritten contact per
      captured contact, differing only in its extensions. */
  lemma ItemsInOrder(target: Side, cs: seq<Contact>)
    ensures forall i | 0 <= i < |cs| :: Items(target, cs)[i] == Item(target, cs[i], RolesOf(target, cs[i].extension))
  {
    MappedAt(Itemizing(target), cs);
  }

  lemma RenamedInOrder(target: Side, cs: seq<Contact>)
    ensures forall i | 0 <= i < |cs| ::
              RenameContacts(target, cs)[i] == cs[i].(extension := RenameAll(target, cs[i].extension))
  {
    MappedAt(ContactRenaming(target), cs);
  }

  predicate ContactFault(target: Side, c: Contact)
  {
    exists j | 0 <= j < |c.extension| :: RoleFault(target, c.extension[j])
  }

  lemma ContactStepOk(target: Side, s: ContactScan, c: Contact)
    ensures var t := ContactStep(target, s, c);
            (t.result.Ok? <==> !ContactFault(target, c))
            && (t.result.Ok? ==>
                  t.after == ContactScan(s.done + [c.(extension := RenameAll(target, c.extension))], Tail(s.pending),
                                         s.items + [Item(target, c, RolesOf(target, c.extension))]))
  {
    RoleLoopFaults(target, RoleScan([], c.extension, []), c.extension);
    RoleLoop(target, RoleScan([], c.extension, []), c.extension);
    assert [] + RenameAll(target, c.extension) + Drop(c.extension, |c.extension|) == RenameAll(target, c.extension);
    assert [] + RolesOf(target, c.extension) == RolesOf(target, c.extension);
  }

  /** The outer loop throws exactly when some contact holds a faulty extension. */
  lemma ContactLoopFaults(target: Side, start: ContactScan, cs: seq<Contact>)
    ensures Scan(ContactsStep(target), start, cs).result.Ok? <==> forall i | 0 <= i < |cs| :: !ContactFault(target, cs[i])
  {
    forall s: ContactScan, c: Contact
      ensures ContactsStep(target)(s, c).result.Ok? <==> !ContactFault(target, c)
    {
      ContactStepOk(target, s, c);
    }
    ScanOk(ContactsStep(target), (c: Contact) => ContactFault(target, c), start, cs);
  }

  /** Otherwise it writes one contact per captured contact, in order, and rewrites every
      captured one. */
  lemma {:induction false} ContactLoop(target: Side, start: ContactScan, cs: seq<Contact>)
    ensures var s := Scan(ContactsStep(target), start, cs);
            s.result.Ok? ==>
              s.after == ContactScan(start.done + RenameContacts(target, cs), Drop(start.pending, |cs|),
                                     start.items + Items(target, cs))
    decreases |cs|
  {
    if cs != [] {
      var init := cs[..|cs| - 1];
      ContactLoop(target, start, init);
      var s := Scan(ContactsStep(target), start, init);
      var c := cs[|cs| - 1];
      ContactStepOk(target, s.after, c);
      if s.result.Ok? && !ContactFault(target, c) {
        DropNext(start.pending, |init|);
        MappedSnoc(ContactRenaming(target), start.done, cs);
        MappedSnoc(Itemizing(target), start.items, cs);
      }
    }
  }

  /** The pass over `cs[i]` after the passes before it completed in state `s`. */
  lemma ContactsNext(target: Side, start: ContactScan, cs: seq<Contact>, i: nat, s: ContactScan)
    requires i < |cs| && Scan(ContactsStep(target), start, cs[..i]) == Step(Ok(()), s)
    ensures Scan(ContactsStep(target), start, cs[..i + 1]) == ContactStep(target, s, cs[i])
  {
    ScanNext(ContactsStep(target), start, cs, i);
  }

  // ---------------------------------------------------------------- emitting

  /** `toBbmri` (target `Bbmri`) and `toMii` (target `Mii`): the id, the target's profile,
      the BBMRI-ERIC identifier when known, the description under the target's URL, name,
      alias list and one contact per captured contact. Testing a `null` contact list
      throws; so does a faulty role extension, after the role extensions visited before it
      have already been rewritten in the captured contacts. */
  function Emit(target: Side, rec: BiobankRecord): Step<BiobankRecord, Organization>
  {
    if rec.contacts == None then Step(Thrown(NullPointer), rec)
    else
      var cs := rec.contacts.value;
      var loop := Scan(ContactsStep(target), ContactScan([], cs, []), cs);
      var after := rec.(contacts := Some(loop.after.done + loop.after.pending));
      if loop.result.Thrown? then Step(Thrown(loop.result.fault), after)
      else Step(Ok(Written(target, rec, loop.after.items)), after)
  }

  /** The Organization written around the contacts `contact`. */
  function Written(target: Side, rec: BiobankRecord, contact: seq<Contact>): Organization
  {
    Organization(rec.id, Profiled(BiobankProfile(target)),
                 if rec.bbmriId != None then [Identifier(Some(BbmriIdSystem), rec.bbmriId)] else [],
                 rec.name, if rec.alias.Some? then rec.alias.value else [],
                 if rec.description != None
                 then [Extension(Some(DescriptionUrl(target)), StringValue(rec.description.value))] else [],
                 contact, None)
  }

  /** An emission without faults, all at once. */
  lemma EmitOk(target: Side, rec: BiobankRecord)
    requires rec.contacts.Some? && forall i | 0 <= i < |rec.contacts.value| :: !ContactFault(target, rec.contacts.value[i])
    ensures Emit(target, rec) == Step(Ok(Written(target, rec, Items(target, rec.contacts.value))),
                                      rec.(contacts := Some(RenameContacts(target, rec.contacts.value))))
  {
    var cs := rec.contacts.value;
    ContactLoopFaults(target, ContactScan([], cs, []), cs);
    ContactLoop(target, ContactScan([], cs, []), cs);
    assert [] + RenameContacts(target, cs) + Drop(cs, |cs|) == RenameContacts(target, cs);
    assert [] + Items(target, cs) == Items(target, cs);
  }

  /** What an emission states: it throws exactly without a contact list or with a faulty
      role extension; otherwise the output carries the captured fields and one contact per
      captured contact, in order, and the captured roles are rewritten. */
  lemma EmitContract(target: Side, rec: BiobankRecord)
    ensures var s := Emit(target, rec);
            (s.result.Thrown? <==> rec.contacts == None
                                   || exists i | 0 <= i < |rec.contacts.value| :: ContactFault(target, rec.contacts.value[i]))
            && (rec.contacts == None ==> s.after == rec)
            && (s.result.Ok? ==>
                  var o := s.result.value;
                  s.after == rec.(contacts := Some(RenameContacts(target, rec.contacts.value)))
                  && o.id == rec.id && o.name == rec.name && o.meta == Profiled(BiobankProfile(target))
                  && (|o.identifier| == 1 <==> rec.bbmriId != None)
                  && (rec.bbmriId != None ==> o.identifier[0] == Identifier(Some(BbmriIdSystem), rec.bbmriId))
                  && (|o.extension| == 1 <==> rec.description != None)
                  && (rec.description != None ==>
                        o.extension[0] == Extension(Some(DescriptionUrl(target)), StringValue(rec.description.value)))
                  && o.contact == Items(target, rec.contacts.value))
  {
    if rec.contacts != None {
      var cs := rec.contacts.value;
      ContactLoopFaults(target, ContactScan([], cs, []), cs);
      if forall i | 0 <= i < |cs| :: !ContactFault(target, cs[i]) {
        EmitOk(target, rec);
      }
    }
  }

  /** A contact written to bbmri.de has purpose ADMIN exactly when the MII contact holds a
      KontaktRolle extension; one written to MII always has purpose RESEARCH. */
  lemma PurposeIsAdminForRoles(target: Side, c: Contact)
    requires !ContactFault(target, c)
    ensures Item(target, c, RolesOf(target, c.extension)).purpose.coding[0].code == Some("ADMIN")
            <==> target == Bbmri && exists j | 0 <= j < |c.extension| :: c.extension[j].url == Some(KontaktRolleUrl)
  {
    RolesNonEmpty(target, c.extension);
  }

  lemma {:induction false} RolesNonEmpty(target: Side, exts: seq<Extension>)
    requires forall j | 0 <= j < |exts| :: !RoleFault(target, exts[j])
    ensures |RolesOf(target, exts)| > 0 <==> exists j | 0 <= j < |exts| :: exts[j].url == Some(RoleUrl(Other(target)))
    decreases |exts|
  {
    if exts != [] {
      var init := exts[..|exts| - 1];
      assert forall j | 0 <= j < |init| :: init[j] == exts[j];
      RolesNonEmpty(target, init);
    }
  }

  /** Rewriting a role twice is rewriting it once: the respelled director is no longer
      the other side's spelling. */
  lemma RenameIdempotent(target: Side, e: Extension)
    requires !RoleFault(target, e)
    ensures RenameRole(target, RenameRole(target, e).value) == RenameRole(target, e)
    ensures Renamed(target, Renamed(target, e)) == Renamed(target, e)
    ensures RoleOf(target, Renamed(target, e)) == RoleOf(target, e)
  {
  }

  lemma RenameAllNoFault(target: Side, exts: seq<Extension>)
    requires forall j | 0 <= j < |exts| :: !RoleFault(target, exts[j])
    ensures forall j | 0 <= j < |exts| :: !RoleFault(target, RenameAll(target, exts)[j])
  {
    MappedAt(Renaming(target), exts);
    forall j | 0 <= j < |exts|
      ensures !RoleFault(target, RenameAll(target, exts)[j])
    {
      RenameIdempotent(target, exts[j]);
    }
  }

  lemma RenameAllIdempotent(target: Side, exts: seq<Extension>)
    requires forall j | 0 <= j < |exts| :: !RoleFault(target, exts[j])
    ensures RenameAll(target, RenameAll(target, exts)) == RenameAll(target, exts)
  {
    forall j | 0 <= j < |exts|
      ensures Renamed(target, Renamed(target, exts[j])) == Renamed(target, exts[j])
    {
      RenameIdempotent(target, exts[j]);
    }
    MappedCompose(Renaming(target), Renaming(target), Renaming(target), exts);
  }

  lemma {:induction false} RolesOfRenamed(target: Side, exts: seq<Extension>)
    requires forall j | 0 <= j < |exts| :: !RoleFault(target, exts[j])
    ensures RolesOf(target, RenameAll(target, exts)) == RolesOf(target, exts)
    decreases |exts|
  {
    if exts != [] {
      var init := exts[..|exts| - 1];
      assert forall j | 0 <= j < |init| :: init[j] == exts[j];
      RolesOfRenamed(target, init);
      var r := RenameAll(target, exts);
      assert r[..|r| - 1] == RenameAll(target, init);
      assert r[|r| - 1] == Renamed(target, exts[|exts| - 1]);
      RenameIdempotent(target, exts[|exts| - 1]);
    }
  }

  /** Emitting twice emits the same Organization: the in-place rewrite of the captured roles
      by the first call does not change what the second writes. */
  lemma EmitTwice(target: Side, rec: BiobankRecord)
    requires rec.contacts.Some? && forall i | 0 <= i < |rec.contacts.value| :: !ContactFault(target, rec.contacts.value[i])
    ensures Emit(target, Emit(target, rec).after) == Emit(target, rec)
  {
    var cs := rec.contacts.value;
    EmitOk(target, rec);
    RenameContactsNoFault(target, cs);
    RenameContactsTwice(target, cs);
    RenameContactsItems(target, cs);
    EmitOk(target, Emit(target, rec).after);
  }

  lemma ContactRenamedTwice(target: Side, c: Contact)
    requires !ContactFault(target, c)
    ensures var c2 := c.(extension := RenameAll(target, c.extension));
            !ContactFault(target, c2) && c2.(extension := RenameAll(target, c2.extension)) == c2
            && Item(target, c2, RolesOf(target, c2.extension)) == Item(target, c, RolesOf(target, c.extension))
  {
    RenameAllNoFault(target, c.extension);
    RenameAllIdempotent(target, c.extension);
    RolesOfRenamed(target, c.extension);
  }

  lemma RenameContactsNoFault(target: Side, cs: seq<Contact>)
    requires forall i | 0 <= i < |cs| :: !ContactFault(target, cs[i])
    ensures forall i | 0 <= i < |cs| :: !ContactFault(target, RenameContacts(target, cs)[i])
  {
    MappedAt(ContactRenaming(target), cs);
    forall i | 0 <= i < |cs|
      ensures !ContactFault(target, RenameContacts(target, cs)[i])
    {
      ContactRenamedTwice(target, cs[i]);
    }
  }

  lemma RenameContactsTwice(target: Side, cs: seq<Contact>)
    requires forall i | 0 <= i < |cs| :: !ContactFault(target, cs[i])
    ensures RenameContacts(target, RenameContacts(target, cs)) == RenameContacts(target, cs)
  {
    forall i | 0 <= i < |cs|
      ensures ContactRenaming(target)(ContactRenaming(target)(cs[i])) == ContactRenaming(target)(cs[i])
    {
      ContactRenamedTwice(target, cs[i]);
    }
    MappedCompose(ContactRenaming(target), ContactRenaming(target), ContactRenaming(target), cs);
  }

  lemma RenameContactsItems(target: Side, cs: seq<Contact>)
    requires forall i | 0 <= i < |cs| :: !ContactFault(target, cs[i])
    ensures Items(target, RenameContacts(target, cs)) == Items(target, cs)
  {
    forall i | 0 <= i < |cs|
      ensures Itemizing(target)(ContactRenaming(target)(cs[i])) == Itemizing(target)(cs[i])
    {
      ContactRenamedTwice(target, cs[i]);
    }
    MappedCompose(ContactRenaming(target), Itemizing(target), Itemizing(target), cs);
  }

  /** A MII director becomes a bbmri.de "Director" ContactRole, and an MII role extension
      whose text is not the other spelling comes back unchanged through bbmri.de and MII
      (they differ only in the role URL, which the trip restores). */
  lemma DirectorRoundTrip(e: Extension)
    requires e.url == Some(KontaktRolleUrl) && e.value.StringValue?
    ensures var toBbmri := RenameRole(Bbmri, e);
            toBbmri.Ok?
            && (e.value.s == "Direktor" ==> toBbmri.value.value == StringValue("Director"))
            && var asBbmri := Extension(Some(ContactRoleUrl), toBbmri.value.value);
               var back := RenameRole(Mii, asBbmri);
               back.Ok?
               && (e.value.s != "Director" ==> Extension(Some(KontaktRolleUrl), back.value.value) == e)
  {
  }

  /** A fresh mapping cannot emit: its contact list is `null`. */
  lemma FreshCannotEmit(target: Side)
    ensures Emit(target, Fresh) == Step(Thrown(NullPointer), Fresh)
  {
  }

  /** bbmri.de to MII: a fresh mapping fed a bbmri.de Organization without faulty
      extensions carries the id, the name, the bbmri.de description (now under the MII URL)
      and the BBMRI-ERIC identifier when the first identifier has that system. */
  lemma BbmriToMiiCarriesOrganization(o: Organization)
    requires forall i | 0 <= i < |o.extension| :: !DescriptionFault(Bbmri, o.extension[i])
    requires forall i | 0 <= i < |o.contact| :: !ContactFault(Mii, o.contact[i])
    ensures var cap := Capture(Bbmri, Fresh, o);
            cap.result.Ok?
            && var s := Emit(Mii, cap.after);
               s.result.Ok? && s.result.value.id == o.id && s.result.value.name == o.name
               && s.result.value.alias == o.alias && |s.result.value.contact| == |o.contact|
               && (var d := LastDescription(Bbmri, o.extension, None);
                   d != None ==> s.result.value.extension == [Extension(Some(MiiDescriptionUrl), StringValue(d.value))])
               && (FirstIdentifier(o.identifier).system == Some(BbmriIdSystem) && FirstIdentifier(o.identifier).value != None
                   ==> s.result.value.identifier == [FirstIdentifier(o.identifier)])
  {
    CaptureFields(Bbmri, Fresh, o);
    EmitContract(Mii, Capture(Bbmri, Fresh, o).after);
  }

  class BiobankMapping {
    var id: JString
    var bbmriId: JString
    var name: JString
    var contacts: Option<seq<Contact>>
    var alias: Option<seq<string>>
    var bioBankDescription: JString

    function Snapshot(): BiobankRecord
      reads this
    {
      BiobankRecord(id, bbmriId, name, contacts, alias, bioBankDescription)
    }

    constructor ()
      ensures Snapshot() == Fresh
    {
      id, bbmriId, name, contacts, alias, bioBankDescription := None, None, None, None, None, None;
    }

    /** `getBbmriId` */
    method ReadBbmriId(organization: Organization)
      modifies this
      ensures Snapshot() == old(Snapshot()).(bbmriId := BbmriIdOf(old(bbmriId), organization))
    {
      var first := FirstIdentifier(organization.identifier);
      if first.system.Some? && first.system.value == BbmriIdSystem {
        bbmriId := first.value;
      }
    }

    /** One pass of the description loop. */
    method ReadDescription(side: Side, e: Extension) returns (r: Result<()>)
      modifies this
      ensures Step(r, Snapshot()) == DescriptionExtension(side, old(Snapshot()), e)
    {
      r := Ok(());
      if e.url == None {
        return Thrown(NullPointer);
      }
      if e.url.value == DescriptionUrl(side) {
        var text := PrimitiveValue(e.value);
        if text.Thrown? {
          return Thrown(text.fault);
        }
        bioBankDescription := text.value;
      }
    }

    method ReadDescriptions(side: Side, exts: seq<Extension>) returns (r: Result<()>)
      modifies this
      ensures Step(r, Snapshot()) == Scan(DescriptionStep(side), old(Snapshot()), exts)
    {
      ghost var start := Snapshot();
      var i := 0;
      r := Ok(());
      while i < |exts|
        invariant 0 <= i <= |exts|
        invariant Step(Ok(()), Snapshot()) == Scan(DescriptionStep(side), start, exts[..i])
      {
        ScanNextOk(DescriptionStep(side), start, exts, i, Snapshot());
        var res := ReadDescription(side, exts[i]);
        if res.Thrown? {
          r := res;
          ScanStop(DescriptionStep(side), start, exts, i);
          return;
        }
        i := i + 1;
      }
      assert exts[..i] == exts;
    }

    /** `fromBbmri` and `fromMii`, which differ only in the description URL they read. */
    method Read(side: Side, resource: Organization) returns (r: Result<()>)
      modifies this
      ensures Step(r, Snapshot()) == Capture(side, old(Snapshot()), resource)
    {
      id := resource.id;
      ReadBbmriId(resource);
      name, alias := resource.name, Some(resource.alias);
      r := ReadDescriptions(side, resource.extension);
      if r.Ok? {
        contacts := Some(resource.contact);
      }
    }

    method FromBbmri(resource: Organization) returns (r: Result<()>)
      modifies this
      ensures Step(r, Snapshot()) == Capture(Bbmri, old(Snapshot()), resource)
    {
      r := Read(Bbmri, resource);
    }

    method FromMii(resource: Organization) returns (r: Result<()>)
      modifies this
      ensures Step(r, Snapshot()) == Capture(Mii, old(Snapshot()), resource)
    {
      r := Read(Mii, resource);
    }

    /** One pass of the loop over a captured contact's extensions. */
    static method TranslateRole(target: Side, s: RoleScan, e: Extension) returns (r: Result<()>, s': RoleScan)
      ensures Step(r, s') == RoleExtension(target, s, e)
    {
      var renamed := RenameRole(target, e);
      if renamed.Thrown? {
        return Thrown(renamed.fault), s;
      }
      s' := s;
      if e.url == Some(RoleUrl(Other(target))) {
        s' := s'.(roles := s'.roles + [Extension(Some(RoleUrl(target)), renamed.value.value)]);
      }
      s' := s'.(done := s'.done + [renamed.value], pending := Tail(s'.pending));
      r := Ok(());
    }

    /** The loop over one captured contact's extensions. */
    static method TranslateRoles(target: Side, exts: seq<Extension>) returns (r: Result<()>, s: RoleScan)
      ensures Step(r, s) == Scan(RoleStep(target), RoleScan([], exts, []), exts)
    {
      var start := RoleScan([], exts, []);
      s := start;
      r := Ok(());
      var i := 0;
      while i < |exts|
        invariant 0 <= i <= |exts|
        invariant Step(Ok(()), s) == Scan(RoleStep(target), start, exts[..i])
      {
        ScanNextOk(RoleStep(target), start, exts, i, s);
        var pass;
        pass, s := TranslateRole(target, s, exts[i]);
        if pass.Thrown? {
          r := pass;
          ScanStop(RoleStep(target), start, exts, i);
          return;
        }
        i := i + 1;
      }
      assert exts[..i] == exts;
    }

    /** One pass of the loop over the captured contacts. */
    static method TranslateContact(target: Side, s: ContactScan, c: Contact) returns (r: Result<()>, s': ContactScan)
      ensures Step(r, s') == ContactStep(target, s, c)
    {
      var roles;
      r, roles := TranslateRoles(target, c.extension);
      s' := ContactScan(s.done + [c.(extension := roles.done + roles.pending)], Tail(s.pending),
                        s.items + [Item(target, c, roles.roles)]);
    }

    /** The loop over the captured contacts. */
    static method TranslateContacts(target: Side, cs: seq<Contact>) returns (r: Result<()>, s: ContactScan)
      ensures Step(r, s) == Scan(ContactsStep(target), ContactScan([], cs, []), cs)
    {
      var start := ContactScan([], cs, []);
      s := start;
      r := Ok(());
      var i := 0;
      while i < |cs|
        invariant 0 <= i <= |cs|
        invariant Step(Ok(()), s) == Scan(ContactsStep(target), start, cs[..i])
      {
        ContactsNext(target, start, cs, i, s);
        var inner;
        inner, s := TranslateContact(target, s, cs[i]);
        if inner.Thrown? {
          r := inner;
          ScanStop(ContactsStep(target), start, cs, i);
          return;
        }
        i := i + 1;
      }
      assert cs[..i] == cs;
    }

    /** `toBbmri` and `toMii`. */
    method Write(target: Side) returns (r: Result<Organization>)
      modifies this
      ensures Step(r, Snapshot()) == Emit(target, old(Snapshot()))
    {
      if contacts == None {
        return Thrown(NullPointer);
      }
      var loop, s := TranslateContacts(target, contacts.value);
      contacts := Some(s.done + s.pending);
      if loop.Thrown? {
        return Thrown(loop.fault);
      }
      var identifier := [];
      if bbmriId != None {
        identifier := [Identifier(Some(BbmriIdSystem), bbmriId)];
      }
      var description := [];
      if bioBankDescription != None {
        description := [Extension(Some(DescriptionUrl(target)), StringValue(bioBankDescription.value))];
      }
      var aliases := [];
      if alias.Some? {
        aliases := alias.value;
      }
      r := Ok(Organization(id, Profiled(BiobankProfile(target)), identifier, name, aliases, description, s.items, None));
    }

    method ToBbmri() returns (r: Result<Organization>)
      modifies this
      ensures Step(r, Snapshot()) == Emit(Bbmri, old(Snapshot()))
    {
      r := Write(Bbmri);
    }

    method ToMii() returns (r: Result<Organization>)
      modifies this
      ensures Step(r, Snapshot()) == Emit(Mii, old(Snapshot()))
    {
      r := Write(Mii);
    }
  }
}
