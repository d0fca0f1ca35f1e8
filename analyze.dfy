/**
 * Identity resolution and graph construction: the GraphBuilder folds
 * per-platform contact records into merged contacts, keeping a name index
 * and a phone index, and derives an undirected graph from the result.
 */
module Analyze {
  import opened Data

  /** A node of the exported graph: the user ("ME"), a community, or a merged contact. */
  datatype Node = Me | CommunityNode(community: PlatformCommunity) | ContactNode(contact: Contact)

  /**
   * An undirected graph: each node with its `name` attribute, and each edge
   * (the set of its two end points) with whether it carries `personal=True`.
   */
  datatype Graph = Graph(nodes: map<Node, string>, edges: map<set<Node>, bool>)

  /** The `name` attribute of a contact's node: a longest alias, or "UNKNOWN" when there is none. */
  ghost predicate IsLongestName(longest: string, names: set<string>)
  {
    if names == {} then longest == "UNKNOWN"
    else longest in names && NoneLonger(names, longest)
  }

  /** No string of `names` is longer than `s`. */
  ghost predicate NoneLonger(names: set<string>, s: string)
  {
    forall m | m in names :: |m| <= |s|
  }

  /** The contacts `index` maps some key of `keys` to. */
  function IndexHits(index: map<string, Contact>, keys: set<string>): set<Contact>
  {
    set k | k in keys && k in index :: index[k]
  }

  /** Looking up one more key adds at most the contact it is indexed to. */
  lemma IndexHitsInsert(index: map<string, Contact>, keys: set<string>, key: string)
    ensures IndexHits(index, keys + {key}) == IndexHits(index, keys) + (if key in index then {index[key]} else {})
  {
  }

  /** The union of the communities of a sequence of records. */
  ghost function CommunitiesOf(records: seq<PlatformContact>): set<PlatformCommunity>
    reads records
  {
    if records == [] then {}
    else CommunitiesOf(records[..|records| - 1]) + records[|records| - 1].communities
  }

  /** A community is in CommunitiesOf(records) exactly when some record lists it. */
  lemma {:induction false} CommunitiesOfMembership(records: seq<PlatformContact>, k: PlatformCommunity)
    ensures k in CommunitiesOf(records) <==> exists i :: 0 <= i < |records| && k in records[i].communities
  {
    if records != [] {
      var front := records[..|records| - 1];
      CommunitiesOfMembership(front, k);
      if k in CommunitiesOf(front) {
        var i :| 0 <= i < |front| && k in front[i].communities;
        assert records[i] == front[i];
      }
      forall i | 0 <= i < |front| && k in records[i].communities
        ensures k in CommunitiesOf(front)
      {
        assert front[i] == records[i];
      }
    }
  }

  /** The edges joining the node of `c` to the nodes of the communities `ks`. */
  ghost function MembershipEdges(c: Contact, ks: set<PlatformCommunity>): set<set<Node>>
  {
    set k | k in ks :: {ContactNode(c), CommunityNode(k)}
  }

  /** The edges a contact with at least two communities contributes to the graph. */
  ghost function ContactEdges(c: Contact): set<set<Node>>
    reads c
  {
    (if c.personal then {{Me, ContactNode(c)}} else {}) + MembershipEdges(c, c.communities)
  }

  /** The edges contributed by those contacts of `cs` that have at least two communities. */
  ghost function EdgesOf(cs: set<Contact>): set<set<Node>>
    reads cs
  {
    set c, e | c in cs && |c.communities| >= 2 && e in ContactEdges(c) :: e
  }

  /** The nodes of those contacts of `cs` that have at least two communities. */
  ghost function ContactNodes(cs: set<Contact>): set<Node>
    reads cs
  {
    set c | c in cs && |c.communities| >= 2 :: ContactNode(c)
  }

  /** The nodes of the communities `ks`. */
  ghost function CommunityNodes(ks: set<PlatformCommunity>): set<Node>
  {
    set k | k in ks :: CommunityNode(k)
  }

  /** One more contact adds its edges exactly when it has at least two communities. */
  lemma EdgesOfInsert(cs: set<Contact>, c: Contact)
    ensures EdgesOf(cs + {c}) == EdgesOf(cs) + (if |c.communities| >= 2 then ContactEdges(c) else {})
  {
  }

  /** One more contact adds its node exactly when it has at least two communities. */
  lemma ContactNodesInsert(cs: set<Contact>, c: Contact)
    ensures ContactNodes(cs + {c}) == ContactNodes(cs) + (if |c.communities| >= 2 then {ContactNode(c)} else {})
  {
  }

  /** The community loop of build: a node for each of `ks`, named after the community. */
  method AddCommunityNodes(g: Graph, ks: set<PlatformCommunity>) returns (r: Graph)
    ensures r.edges == g.edges
    ensures r.nodes.Keys == g.nodes.Keys + CommunityNodes(ks)
    ensures forall k | k in ks :: r.nodes[CommunityNode(k)] == k.name
    ensures forall n | n in g.nodes && n !in CommunityNodes(ks) :: r.nodes[n] == g.nodes[n]
  {
    r := g;
    var todo := ks;
    while todo != {}
      invariant todo <= ks && r.edges == g.edges
      invariant r.nodes.Keys == g.nodes.Keys + CommunityNodes(ks - todo)
      invariant forall k | k in ks - todo :: r.nodes[CommunityNode(k)] == k.name
      invariant forall n | n in g.nodes && n !in CommunityNodes(ks - todo) :: r.nodes[n] == g.nodes[n]
      decreases todo
    {
      var comm :| comm in todo;
      r := r.(nodes := r.nodes[CommunityNode(comm) := comm.name]);
      todo := todo - {comm};
    }
  }

  /**
   * The membership loop of build: an edge from the node of `c` to each of
   * `ks`. Like networkx's add_edge without attributes, an edge that is
   * already present keeps its `personal` mark; a new one has none.
   */
  method AddMembershipEdges(g: Graph, c: Contact, ks: set<PlatformCommunity>) returns (r: Graph)
    ensures r.nodes == g.nodes
    ensures r.edges.Keys == g.edges.Keys + MembershipEdges(c, ks)
    ensures forall e | e in r.edges :: r.edges[e] == (e in g.edges && g.edges[e])
  {
    r := g;
    var todo := ks;
    while todo != {}
      invariant todo <= ks && r.nodes == g.nodes
      invariant r.edges.Keys == g.edges.Keys + MembershipEdges(c, ks - todo)
      invariant forall e | e in r.edges :: r.edges[e] == (e in g.edges && g.edges[e])
      decreases todo
    {
      var comm :| comm in todo;
      var e := {ContactNode(c), CommunityNode(comm)};
      r := r.(edges := r.edges[e := e in r.edges && r.edges[e]]);
      todo := todo - {comm};
    }
  }

  /**
   * The nodes build has emitted, with their labels, once the communities
   * `ks` and the contacts `done` have been visited.
   */
  ghost predicate NodesSoFar(g: Graph, ks: set<PlatformCommunity>, done: set<Contact>)
    reads done
  {
    && g.nodes.Keys == {Me} + CommunityNodes(ks) + ContactNodes(done)
    && g.nodes[Me] == "me"
    && (forall k | k in ks :: g.nodes[CommunityNode(k)] == k.name)
  }

  /** Every contact node of `g` is labelled with a longest alias of its contact. */
  ghost predicate Labelled(g: Graph)
    reads set n | n in g.nodes && n.ContactNode? :: n.contact
  {
    forall n | n in g.nodes && n.ContactNode? :: IsLongestName(g.nodes[n], n.contact.names)
  }

  /** The edges build has emitted once the contacts `done` have been visited. */
  ghost predicate EdgesSoFar(g: Graph, done: set<Contact>)
    reads done
  {
    && g.edges.Keys == EdgesOf(done)
    && (forall e | e in g.edges :: g.edges[e] == (Me in e))
  }

  /** Before the contact loop: ME and the community nodes, no edges. */
  lemma NothingVisited(g: Graph, ks: set<PlatformCommunity>)
    requires g.nodes.Keys == {Me} + CommunityNodes(ks) && g.nodes[Me] == "me"
    requires forall k | k in ks :: g.nodes[CommunityNode(k)] == k.name
    requires g.edges == map[]
    ensures NodesSoFar(g, ks, {}) && Labelled(g) && EdgesSoFar(g, {})
  {
    assert ContactNodes({}) == {};
    assert EdgesOf({}) == {};
  }

  /** Visiting one more contact, as AddContact does, extends the nodes by that contact's node. */
  lemma NodesSoFarStep(g: Graph, r: Graph, ks: set<PlatformCommunity>, done: set<Contact>, c: Contact)
    requires NodesSoFar(g, ks, done) && c !in done
    requires r.nodes.Keys == g.nodes.Keys + (if |c.communities| >= 2 then {ContactNode(c)} else {})
    requires forall n | n in g.nodes && n != ContactNode(c) :: r.nodes[n] == g.nodes[n]
    ensures NodesSoFar(r, ks, done + {c})
  {
    ContactNodesInsert(done, c);
  }

  /** Visiting one more contact, as AddContact does, labels that contact's node and keeps the other labels. */
  lemma LabelledStep(g: Graph, r: Graph, c: Contact)
    requires Labelled(g)
    requires r.nodes.Keys == g.nodes.Keys + (if |c.communities| >= 2 then {ContactNode(c)} else {})
    requires forall n | n in g.nodes && n != ContactNode(c) :: r.nodes[n] == g.nodes[n]
    requires |c.communities| >= 2 ==> IsLongestName(r.nodes[ContactNode(c)], c.names)
    requires |c.communities| < 2 ==> r.nodes == g.nodes
    ensures Labelled(r)
  {
  }

  /** Visiting one more contact, as AddContact does, extends the edges by that contact's edges. */
  lemma EdgesSoFarStep(g: Graph, r: Graph, done: set<Contact>, c: Contact)
    requires EdgesSoFar(g, done) && c !in done
    requires r.edges.Keys == g.edges.Keys + (if |c.communities| >= 2 then ContactEdges(c) else {})
    requires forall e | e in r.edges :: r.edges[e] == (Me in e)
    ensures EdgesSoFar(r, done + {c})
  {
    EdgesOfInsert(done, c);
  }

  /** The contact loop of build: visits every contact of `cs` as AddContact does. */
  method AddContacts(g: Graph, ks: set<PlatformCommunity>, cs: set<Contact>) returns (r: Graph)
    requires NodesSoFar(g, ks, {}) && Labelled(g) && EdgesSoFar(g, {})
    ensures NodesSoFar(r, ks, cs) && Labelled(r) && EdgesSoFar(r, cs)
  {
    r := g;
    var rest := cs;
    ghost var done: set<Contact> := {};
    while rest != {}
      invariant done + rest == cs && done !! rest
      invariant NodesSoFar(r, ks, done) && Labelled(r) && EdgesSoFar(r, done)
      decreases rest
    {
      var c :| c in rest;
      var r' := AddContact(r, c);
      NodesSoFarStep(r, r', ks, done, c);
      LabelledStep(r, r', c);
      EdgesSoFarStep(r, r', done, c);
      r := r';
      rest := rest - {c};
      done := done + {c};
    }
  }

  /**
   * One iteration of build's contact loop: a contact with fewer than two
   * communities is skipped; otherwise its node is labelled with a longest
   * alias, joined to ME by a personal edge if the contact is personal, and
   * joined to each of its communities.
   */
  method AddContact(g: Graph, c: Contact) returns (r: Graph)
    requires forall e | e in g.edges :: g.edges[e] == (Me in e)
    ensures |c.communities| < 2 ==> r == g
    ensures r.nodes.Keys == g.nodes.Keys + (if |c.communities| >= 2 then {ContactNode(c)} else {})
    ensures forall n | n in g.nodes && n != ContactNode(c) :: r.nodes[n] == g.nodes[n]
    ensures |c.communities| >= 2 ==> IsLongestName(r.nodes[ContactNode(c)], c.names)
    ensures r.edges.Keys == g.edges.Keys + (if |c.communities| >= 2 then ContactEdges(c) else {})
    ensures forall e | e in r.edges :: r.edges[e] == (Me in e)
  {
    r := g;
    if |c.communities| < 2 {
      return;
    }
    var name := LongestName(c.names);
    r := r.(nodes := r.nodes[ContactNode(c) := name]);
    if c.personal {
      r := r.(edges := r.edges[{Me, ContactNode(c)} := true]);
    }
    r := AddMembershipEdges(r, c, c.communities);
  }

  /** Finds a longest alias, or "UNKNOWN" when there is none; which longest one is not specified. */
  method LongestName(names: set<string>) returns (longest: string)
    ensures IsLongestName(longest, names)
  {
    if names == {} {
      return "UNKNOWN";
    }
    longest :| longest in names;
    var todo := names - {longest};
    while todo != {}
      invariant todo <= names && longest in names
      invariant forall m | m in names - todo :: |m| <= |longest|
      decreases todo
    {
      var m :| m in todo;
      if |m| > |longest| {
        longest := m;
      }
      todo := todo - {m};
    }
  }

  /** The alias loop of find_related: adds `names` to the aliases of every contact of `rel`. */
  method AddAliases(rel: set<Contact>, names: set<string>)
    modifies rel`names
    ensures forall c | c in rel :: c.names == old(c.names) + names
  {
    var todo := rel;
    while todo != {}
      invariant todo <= rel
      invariant forall c | c in rel :: c.names == if c in todo then old(c.names) else old(c.names) + names
      decreases todo
    {
      var r :| r in todo;
      r.names := r.names + names;
      todo := todo - {r};
    }
  }

  /**
   * An index loop of add's creation branch: `index` with every key of `keys`
   * (re)pointed at `contact`, earlier entries for those keys overwritten.
   */
  method IndexUnder(index: map<string, Contact>, keys: set<string>, contact: Contact) returns (r: map<string, Contact>)
    ensures r == index + (map k | k in keys :: contact)
  {
    r := index;
    var todo := keys;
    ghost var done: set<string> := {};
    while todo != {}
      invariant done + todo == keys && done !! todo
      invariant r == index + (map k | k in done :: contact)
      decreases todo
    {
      var key :| key in todo;
      r := r[key := contact];
      todo := todo - {key};
      done := done + {key};
    }
  }

  /** The creation step of add: a fresh contact holding exactly the record's platform slot, names, communities and flag. */
  method NewContact(pc: PlatformContact) returns (contact: Contact)
    ensures fresh(contact)
    ensures contact.platforms == map[pc.platform := pc] && contact.names == pc.names
    ensures contact.communities == pc.communities && contact.personal == pc.personal
  {
    contact := new Contact();
    contact.platforms := contact.platforms[pc.platform := pc];
    contact.names := contact.names + pc.names;
    contact.communities := contact.communities + pc.communities;
    contact.personal := pc.personal;
  }

  class GraphBuilder {
    var contacts: set<Contact>
    var communities: set<PlatformCommunity>
    var contactByName: map<string, Contact>
    var contactByPhone: map<string, Contact>

    /** Both indexes point into `contacts`. */
    ghost predicate Indexed()
      reads this`contacts, this`contactByName, this`contactByPhone
    {
      && (forall n | n in contactByName :: contactByName[n] in contacts)
      && (forall p | p in contactByPhone :: contactByPhone[p] in contacts)
    }

    /** Every indexed name is an alias of the contact it points at. */
    ghost predicate NamesOwned()
      reads this`contactByName, contactByName.Values`names
    {
      forall n | n in contactByName :: n in contactByName[n].names
    }

    /** Every contact's communities are in the registry. */
    ghost predicate Registered()
      reads this`contacts, this`communities, contacts`communities
    {
      forall c | c in contacts :: c.communities <= communities
    }

    /** The builder's invariant. */
    ghost predicate Valid()
      reads this, contacts
    {
      Indexed() && NamesOwned() && Registered()
    }

    /** Every entry of `index0` is still in the phone index, pointing at the same contact. */
    ghost predicate PhonesKept(index0: map<string, Contact>)
      reads this`contactByPhone
    {
      forall p | p in index0 :: p in contactByPhone && contactByPhone[p] == index0[p]
    }

    constructor ()
      ensures Valid()
      ensures contacts == {} && communities == {}
      ensures contactByName == map[] && contactByPhone == map[]
    {
      contacts := {};
      communities := {};
      contactByName := map[];
      contactByPhone := map[];
    }

    /** The names of `pc` indexed to a contact that already holds a record of `pc`'s platform. */
    ghost function Evicted(pc: PlatformContact): set<string>
      requires Indexed()
      reads this`contacts, this`contactByName, this`contactByPhone, contacts`platforms, pc`names, pc`platform
    {
      set n | n in pc.names && n in contactByName && pc.platform in contactByName[n].platforms
    }

    /** The contacts find_related reports for `pc`: name evidence from another platform, or any phone hit. */
    ghost function Related(pc: PlatformContact): set<Contact>
      requires Indexed()
      reads this`contacts, this`contactByName, this`contactByPhone, contacts`platforms, pc
    {
      IndexHits(contactByName, pc.names - Evicted(pc)) + IndexHits(contactByPhone, pc.phones)
    }

    /**
     * find_related's evidence rule: a contact is related to `pc` exactly when
     * one of `pc`'s names is indexed to it and it holds no record of `pc`'s
     * platform, or one of `pc`'s phones is indexed to it.
     */
    lemma RelatedIff(pc: PlatformContact, c: Contact)
      requires Indexed()
      ensures c in Related(pc) <==>
                || (exists n | n in pc.names && n in contactByName :: contactByName[n] == c && pc.platform !in c.platforms)
                || (exists p | p in pc.phones && p in contactByPhone :: contactByPhone[p] == c)
    {
      if c in IndexHits(contactByName, pc.names - Evicted(pc)) {
        var n :| n in pc.names - Evicted(pc) && n in contactByName && contactByName[n] == c;
        assert pc.platform !in c.platforms;
      }
      if exists n | n in pc.names && n in contactByName :: contactByName[n] == c && pc.platform !in c.platforms {
        var n :| n in pc.names && n in contactByName && contactByName[n] == c && pc.platform !in c.platforms;
        assert n !in Evicted(pc);
        assert c in IndexHits(contactByName, pc.names - Evicted(pc));
      }
    }

    /**
     * A name indexed to a contact that already holds a record of `pc`'s
     * platform is evicted, and that contact is then related only through a
     * phone: the name (and every other name pointing at it) is no evidence.
     */
    lemma EvictedNameIsNoEvidence(pc: PlatformContact, n: string)
      requires Indexed()
      requires n in pc.names && n in contactByName && pc.platform in contactByName[n].platforms
      ensures n in Evicted(pc)
      ensures contactByName[n] in Related(pc) <==>
                exists p | p in pc.phones && p in contactByPhone :: contactByPhone[p] == contactByName[n]
    {
      RelatedIff(pc, contactByName[n]);
    }

    /** A name indexed to a contact without a record of `pc`'s platform makes that contact related. */
    lemma ForeignNameIsEvidence(pc: PlatformContact, n: string)
      requires Indexed()
      requires n in pc.names && n in contactByName && pc.platform !in contactByName[n].platforms
      ensures n !in Evicted(pc) && contactByName[n] in Related(pc)
    {
      RelatedIff(pc, contactByName[n]);
    }

    /** A phone of `pc` that is indexed makes its contact related, whatever platforms it holds. */
    lemma PhoneIsEvidence(pc: PlatformContact, p: string)
      requires Indexed()
      requires p in pc.phones && p in contactByPhone
      ensures contactByPhone[p] in Related(pc)
    {
      RelatedIff(pc, contactByPhone[p]);
    }

    /**
     * The name loop of find_related: every name indexed to a contact that
     * already holds a record of the same platform is deleted from the index
     * and reported as ambiguous; every other indexed name is evidence.
     */
    method LookUpNames(pc: PlatformContact) returns (hits: set<Contact>, dupNames: set<string>)
      requires Valid()
      modifies this`contactByName
      ensures dupNames == old(Evicted(pc))
      ensures contactByName == old(contactByName) - dupNames
      ensures hits == IndexHits(old(contactByName), pc.names - dupNames)
    {
      ghost var index0 := contactByName;
      ghost var evicted := Evicted(pc);
      hits, dupNames := {}, {};
      var todo := pc.names;
      ghost var done: set<string> := {};
      while todo != {}
        invariant done + todo == pc.names && done !! todo
        invariant dupNames == evicted * done
        invariant contactByName == index0 - dupNames
        invariant hits == IndexHits(index0, done - evicted)
        decreases todo
      {
        var name :| name in todo;
        IndexHitsInsert(index0, done - evicted, name);
        if name in contactByName {
          var found := contactByName[name];
          if pc.platform in found.platforms {
            contactByName := contactByName - {name};
            dupNames := dupNames + {name};
          } else {
            hits := hits + {found};
          }
        }
        todo := todo - {name};
        done := done + {name};
      }
    }

    /** The phone loop of find_related: every contact indexed under one of `phones`, whatever its platforms. */
    method LookUpPhones(phones: set<string>) returns (hits: set<Contact>)
      ensures hits == IndexHits(contactByPhone, phones)
    {
      hits := {};
      var todo := phones;
      ghost var done: set<string> := {};
      while todo != {}
        invariant done + todo == phones && done !! todo
        invariant hits == IndexHits(contactByPhone, done)
        decreases todo
      {
        var phone :| phone in todo;
        IndexHitsInsert(contactByPhone, done, phone);
        if phone in contactByPhone {
          hits := hits + {contactByPhone[phone]};
        }
        todo := todo - {phone};
        done := done + {phone};
      }
    }

    /**
     * Looks up the record's names and phones. A name whose contact already
     * holds a record of the same platform is evicted from the name index and
     * is not evidence; every other hit is. The surviving names are added to
     * every related contact.
     */
    method FindRelated(pc: PlatformContact) returns (rel: set<Contact>)
      requires Valid()
      modifies this`contactByName, contacts`names
      ensures Valid()
      ensures rel == old(Related(pc)) && rel <= contacts
      ensures contactByName == old(contactByName) - old(Evicted(pc))
      ensures forall c | c in contacts ::
                c.names == if c in rel then old(c.names) + (pc.names - old(Evicted(pc))) else old(c.names)
    {
      var nameHits, dupNames := LookUpNames(pc);
      var phoneHits := LookUpPhones(pc.phones);
      rel := nameHits + phoneHits;
      AddAliases(rel, pc.names - dupNames);
    }

    /**
     * The update loop of add: every contact of `related`, independently, takes
     * `pc` as its record for `pc`'s platform, gains `pc`'s communities and
     * becomes personal if `pc` is.
     */
    method MergeRecord(related: set<Contact>, pc: PlatformContact)
      requires Valid() && related <= contacts && pc.communities <= communities
      modifies related`platforms, related`communities, related`personal
      ensures Valid()
      ensures forall c | c in related ::
                && c.platforms == old(c.platforms)[pc.platform := pc]
                && c.communities == old(c.communities) + pc.communities
                && c.personal == (old(c.personal) || pc.personal)
    {
      var todo := related;
      while todo != {}
        invariant todo <= related
        invariant forall c | c in related :: c.platforms == if c in todo then old(c.platforms) else old(c.platforms)[pc.platform := pc]
        invariant forall c | c in related :: c.communities == if c in todo then old(c.communities) else old(c.communities) + pc.communities
        invariant forall c | c in related :: c.personal == if c in todo then old(c.personal) else old(c.personal) || pc.personal
        decreases todo
      {
        var r :| r in todo;
        r.platforms := r.platforms[pc.platform := pc];
        r.communities := r.communities + pc.communities;
        r.personal := r.personal || pc.personal;
        todo := todo - {r};
      }
    }

    /** The creation branch of add: a new contact built from `pc`, registered and indexed under all of `pc`'s names and phones. */
    method CreateContact(pc: PlatformContact)
      requires Valid() && pc.communities <= communities
      modifies this
      ensures Valid()
      ensures communities == old(communities)
      ensures exists k: Contact ::
                && fresh(k) && contacts == old(contacts) + {k}
                && k.platforms == map[pc.platform := pc] && k.names == pc.names
                && k.communities == pc.communities && k.personal == pc.personal
                && contactByName == old(contactByName) + (map n | n in pc.names :: k)
                && contactByPhone == old(contactByPhone) + (map p | p in pc.phones :: k)
    {
      var contact := NewContact(pc);
      contacts := contacts + {contact};
      contactByName := IndexUnder(contactByName, pc.names, contact);
      contactByPhone := IndexUnder(contactByPhone, pc.phones, contact);
    }

    /**
     * The first half of one iteration of add: registers the record's
     * communities, finds the related contacts and updates each of them
     * independently (the contacts are never merged with each other).
     */
    method MergeIntoRelated(pc: PlatformContact) returns (related: set<Contact>)
      requires Valid()
      modifies this`communities, this`contactByName, contacts
      ensures Valid()
      ensures related == old(Related(pc))
      ensures communities == old(communities) + pc.communities
      ensures contacts == old(contacts)
      ensures contactByName == old(contactByName) - old(Evicted(pc))
      ensures forall c | c in contacts && c !in related :: unchanged(c)
      ensures forall c | c in related ::
                && c.platforms == old(c.platforms)[pc.platform := pc]
                && c.names == old(c.names) + (pc.names - old(Evicted(pc)))
                && c.communities == old(c.communities) + pc.communities
                && c.personal == (old(c.personal) || pc.personal)
    {
      communities := communities + pc.communities;
      related := FindRelated(pc);
      MergeRecord(related, pc);
    }

    /**
     * One iteration of add: registers the record's communities, then either
     * updates every related contact independently (the contacts are never
     * merged with each other) or, when nothing is related, creates a new
     * contact from the record and indexes all its names and phones.
     */
    method AddRecord(pc: PlatformContact)
      requires Valid()
      modifies this, contacts
      ensures Valid()
      ensures communities == old(communities) + pc.communities
      ensures old(contacts) <= contacts && fresh(contacts - old(contacts))
      ensures forall c | c in old(contacts) && c !in old(Related(pc)) :: unchanged(c)
      ensures forall c | c in old(Related(pc)) ::
                && c.platforms == old(c.platforms)[pc.platform := pc]
                && c.names == old(c.names) + (pc.names - old(Evicted(pc)))
                && c.communities == old(c.communities) + pc.communities
                && c.personal == (old(c.personal) || pc.personal)
      ensures PhonesKept(old(contactByPhone))
      ensures old(Related(pc)) != {} ==>
                && contacts == old(contacts)
                && contactByName == old(contactByName) - old(Evicted(pc))
                && contactByPhone == old(contactByPhone)
      ensures old(Related(pc)) == {} ==>
                exists k: Contact ::
                  && k !in old(contacts) && contacts == old(contacts) + {k}
                  && k.platforms == map[pc.platform := pc] && k.names == pc.names
                  && k.communities == pc.communities && k.personal == pc.personal
                  && contactByName == (old(contactByName) - old(Evicted(pc))) + (map n | n in pc.names :: k)
                  && contactByPhone == old(contactByPhone) + (map p | p in pc.phones :: k)
    {
      var related := MergeIntoRelated(pc);
      if related == {} {
        CreateContact(pc);
      }
    }

    /**
     * Processes the records in order, each as AddRecord does. The registry
     * becomes the old one plus every record's communities; no contact is
     * removed, and aliases, communities, platforms and the personal flag of
     * existing contacts only grow.
     */
    method Add(records: seq<PlatformContact>)
      requires Valid()
      modifies this, contacts
      ensures Valid()
      ensures communities == old(communities) + CommunitiesOf(records)
      ensures old(contacts) <= contacts && fresh(contacts - old(contacts))
      ensures PhonesKept(old(contactByPhone))
      ensures forall c | c in old(contacts) ::
                && old(c.names) <= c.names
                && old(c.communities) <= c.communities
                && old(c.platforms).Keys <= c.platforms.Keys
                && (old(c.personal) ==> c.personal)
    {
      for i := 0 to |records|
        invariant Valid()
        invariant communities == old(communities) + CommunitiesOf(records[..i])
        invariant old(contacts) <= contacts && fresh(contacts - old(contacts))
        invariant PhonesKept(old(contactByPhone))
        invariant forall c | c in old(contacts) ::
                    && old(c.names) <= c.names
                    && old(c.communities) <= c.communities
                    && old(c.platforms).Keys <= c.platforms.Keys
                    && (old(c.personal) ==> c.personal)
      {
        assert records[..i + 1][..i] == records[..i];
        AddRecord(records[i]);
      }
      assert records[..|records|] == records;
    }

    /** The nodes build() emits: "ME", every registered community, every contact with at least two communities. */
    ghost function GraphNodes(): set<Node>
      reads this, contacts
    {
      {Me} + CommunityNodes(communities) + ContactNodes(contacts)
    }

    /** The edges build() emits: ME to each personal emitted contact, and each emitted contact to each of its communities. */
    ghost function GraphEdges(): set<set<Node>>
      reads this, contacts
    {
      EdgesOf(contacts)
    }

    /** A contact has a node exactly when it is known and has at least two communities. */
    lemma ContactNodeIff(c: Contact)
      ensures ContactNode(c) in GraphNodes() <==> c in contacts && |c.communities| >= 2
    {
    }

    /** ME is joined to a contact exactly when the contact has a node and is personal. */
    lemma MeEdgeIff(c: Contact)
      ensures {Me, ContactNode(c)} in GraphEdges() <==> c in contacts && |c.communities| >= 2 && c.personal
    {
      var e := {Me, ContactNode(c)};
      if e in GraphEdges() {
        var d :| d in contacts && |d.communities| >= 2 && e in ContactEdges(d);
        assert e == {Me, ContactNode(d)} && d.personal;
        assert ContactNode(c) in {Me, ContactNode(d)};
      }
      if c in contacts && |c.communities| >= 2 && c.personal {
        assert e in ContactEdges(c);
      }
    }

    /** A contact is joined to a community exactly when it has a node and is a member of the community. */
    lemma MembershipEdgeIff(c: Contact, k: PlatformCommunity)
      ensures {ContactNode(c), CommunityNode(k)} in GraphEdges() <==> c in contacts && |c.communities| >= 2 && k in c.communities
    {
      var e := {ContactNode(c), CommunityNode(k)};
      if e in GraphEdges() {
        var d :| d in contacts && |d.communities| >= 2 && e in ContactEdges(d);
        var j :| j in d.communities && e == {ContactNode(d), CommunityNode(j)};
        assert ContactNode(c) in {ContactNode(d), CommunityNode(j)};
        assert CommunityNode(k) in {ContactNode(d), CommunityNode(j)};
      }
      if c in contacts && |c.communities| >= 2 && k in c.communities {
        assert e in MembershipEdges(c, c.communities);
        assert e in ContactEdges(c);
      }
    }

    /** ME is never joined to a community. */
    lemma NoMeCommunityEdge(k: PlatformCommunity)
      ensures {Me, CommunityNode(k)} !in GraphEdges()
    {
    }

    /** Under the builder's invariant every edge joins two nodes of the graph. */
    lemma EdgesJoinNodes()
      requires Valid()
      ensures forall e | e in GraphEdges() :: e <= GraphNodes()
    {
    }

    /**
     * Derives the graph: a "ME" node, a node per registered community named
     * after it, and for each contact with at least two communities a node
     * labelled with a longest alias, an edge to ME marked personal when the
     * contact is personal, and an edge to each of its communities.
     */
    method Build() returns (g: Graph)
      requires Registered()
      ensures g.nodes.Keys == GraphNodes() && g.edges.Keys == GraphEdges()
      ensures g.nodes[Me] == "me"
      ensures forall k | k in communities :: g.nodes[CommunityNode(k)] == k.name
      ensures forall n | n in g.nodes && n.ContactNode? :: IsLongestName(g.nodes[n], n.contact.names)
      ensures forall e | e in g.edges :: g.edges[e] == (Me in e)
    {
      g := Graph(map[Me := "me"], map[]);
      g := AddCommunityNodes(g, communities);
      NothingVisited(g, communities);
      g := AddContacts(g, communities, contacts);
    }
  }
}
