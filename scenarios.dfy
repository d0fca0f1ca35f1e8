/**
 * Concrete runs of the builder: records are ingested one by one and the
 * resulting contacts and graph are stated exactly.
 */
module Scenarios {
  import opened Data
  import opened Analyze

  /** A record as an ingestion step fills it in, one alias, phone and community at a time. */
  method NewRecord(p: Platform, names: set<string>, phones: set<string>, ks: set<PlatformCommunity>, personal: bool)
    returns (pc: PlatformContact)
    ensures fresh(pc)
    ensures pc.platform == p && pc.names == names && pc.phones == phones && pc.communities == ks && pc.personal == personal
  {
    pc := p.Contact();
    var todo := names;
    while todo != {}
      modifies pc`names
      invariant pc.names == names - todo && pc.phones == {} && pc.communities == {}
      decreases todo
    {
      var n :| n in todo;
      pc.AddName(n);
      todo := todo - {n};
    }
    var todoPhones := phones;
    while todoPhones != {}
      modifies pc`phones
      invariant pc.names == names && pc.phones == phones - todoPhones && pc.communities == {}
      decreases todoPhones
    {
      var n :| n in todoPhones;
      pc.AddPhone(n);
      todoPhones := todoPhones - {n};
    }
    var todoKs := ks;
    while todoKs != {}
      modifies pc`communities
      invariant pc.names == names && pc.phones == phones && pc.communities == ks - todoKs
      decreases todoKs
    {
      var k :| k in todoKs;
      pc.AddCommunity(k);
      todoKs := todoKs - {k};
    }
    pc.personal := personal;
  }

  const Telegram := Platform("telegram")
  const WhatsApp := Platform("whatsapp")
  const Climbing := Telegram.Community("1", "Climbing")
  const Chess := Telegram.Community("2", "Chess")
  const Choir := WhatsApp.Community("3", "Choir")

  /** A fresh builder ingests a personal Telegram record: alias "Alice", phone 555, two communities. */
  method IngestAlice() returns (b: GraphBuilder, c: Contact)
    ensures fresh(b) && b.Valid()
    ensures fresh(c) && b.communities == {Climbing, Chess} && b.contacts == {c}
    ensures "Al" !in b.contactByName && "Bob" !in b.contactByName
    ensures "555" in b.contactByPhone && b.contactByPhone["555"] == c
    ensures c.names == {"Alice"} && c.communities == {Climbing, Chess} && c.personal
  {
    var record := NewRecord(Telegram, {"Alice"}, {"555"}, {Climbing, Chess}, true);
    b := new GraphBuilder();
    assert b.Related(record) == {};
    b.AddRecord(record);
    c :| b.contacts == {} + {c};
  }

  /** A WhatsApp record "Al" in the WhatsApp community Choir, with the same phone, joins Alice's contact instead of creating one. */
  method IngestAl(b: GraphBuilder, c: Contact)
    requires b.Valid() && b.communities == {Climbing, Chess} && b.contacts == {c}
    requires "Al" !in b.contactByName && "Bob" !in b.contactByName
    requires "555" in b.contactByPhone && b.contactByPhone["555"] == c
    requires c.names == {"Alice"} && c.communities == {Climbing, Chess} && c.personal
    modifies b, b.contacts
    ensures b.Valid() && b.communities == {Climbing, Chess, Choir} && b.contacts == {c}
    ensures "Bob" !in b.contactByName
    ensures c.names == {"Alice", "Al"} && c.communities == {Climbing, Chess, Choir} && c.personal
  {
    var record := NewRecord(WhatsApp, {"Al"}, {"555"}, {Choir}, false);
    assert b.Evicted(record) == {};
    assert b.Related(record) == {c};
    b.AddRecord(record);
  }

  /** A Telegram record "Bob" that matches nothing becomes a contact of its own. */
  method IngestBob(b: GraphBuilder, c: Contact) returns (d: Contact)
    requires b.Valid() && b.contacts == {c} && "Bob" !in b.contactByName
    modifies b, b.contacts
    ensures b.Valid() && b.communities == old(b.communities) + {Climbing}
    ensures b.contacts == {c, d} && c != d && unchanged(c)
    ensures d.names == {"Bob"} && d.communities == {Climbing} && !d.personal
  {
    var record := NewRecord(Telegram, {"Bob"}, {}, {Climbing}, false);
    assert b.Related(record) == {};
    b.AddRecord(record);
    d :| d !in {c} && b.contacts == {c} + {d};
  }

  /**
   * Alice (Telegram, personal, phone 555), Al (WhatsApp, phone 555) and Bob
   * (Telegram, one community), in this order: the phone makes Alice and Al
   * one contact; Bob matches nothing and is a second contact.
   */
  method IngestThree() returns (b: GraphBuilder, c: Contact, d: Contact)
    ensures fresh(b) && b.Registered()
    ensures b.communities == {Climbing, Chess, Choir}
    ensures b.contacts == {c, d} && c != d
    ensures c.names == {"Alice", "Al"} && c.communities == {Climbing, Chess, Choir} && c.personal
    ensures d.names == {"Bob"} && d.communities == {Climbing} && !d.personal
  {
    b, c := IngestAlice();
    IngestAl(b, c);
    d := IngestBob(b, c);
  }

  /** Of the aliases "Alice" and "Al", only "Alice" is a longest one. */
  lemma LongestOfAliceAl(longest: string)
    requires IsLongestName(longest, {"Alice", "Al"})
    ensures longest == "Alice"
  {
  }

  /** The nodes of the three communities of the scenario. */
  lemma ThreeCommunityNodes()
    ensures CommunityNodes({Climbing, Chess, Choir}) == {CommunityNode(Climbing), CommunityNode(Chess), CommunityNode(Choir)}
  {
  }

  /** Of two contacts, only the one with at least two communities has a node. */
  lemma ContactNodesOfTwo(c: Contact, d: Contact)
    requires |c.communities| >= 2 && |d.communities| < 2
    ensures ContactNodes({c, d}) == {ContactNode(c)}
  {
  }

  /** Of two contacts, only the one with at least two communities contributes edges. */
  lemma EdgesOfTwo(c: Contact, d: Contact)
    requires |c.communities| >= 2 && |d.communities| < 2
    ensures EdgesOf({c, d}) == ContactEdges(c)
  {
  }

  /** A personal contact in the three communities: its edge to ME and one to each community. */
  lemma EdgesOfAlice(c: Contact)
    requires c.communities == {Climbing, Chess, Choir} && c.personal
    ensures ContactEdges(c) == {{Me, ContactNode(c)}, {ContactNode(c), CommunityNode(Climbing)},
                                {ContactNode(c), CommunityNode(Chess)}, {ContactNode(c), CommunityNode(Choir)}}
  {
  }

  /** The graph build derives from IngestThree's contacts and registry. */
  lemma GraphOfThree(g: Graph, c: Contact, d: Contact)
    requires c.names == {"Alice", "Al"} && c.communities == {Climbing, Chess, Choir} && c.personal
    requires d.communities == {Climbing}
    requires g.nodes.Keys == {Me} + CommunityNodes({Climbing, Chess, Choir}) + ContactNodes({c, d})
    requires g.edges.Keys == EdgesOf({c, d})
    requires forall n | n in g.nodes && n.ContactNode? :: IsLongestName(g.nodes[n], n.contact.names)
    ensures g.nodes.Keys == {Me, CommunityNode(Climbing), CommunityNode(Chess), CommunityNode(Choir), ContactNode(c)}
    ensures g.edges.Keys == {{Me, ContactNode(c)}, {ContactNode(c), CommunityNode(Climbing)},
                             {ContactNode(c), CommunityNode(Chess)}, {ContactNode(c), CommunityNode(Choir)}}
    ensures g.nodes[ContactNode(c)] == "Alice"
  {
    ContactNodesOfTwo(c, d);
    EdgesOfTwo(c, d);
    EdgesOfAlice(c);
    ThreeCommunityNodes();
    LongestOfAliceAl(g.nodes[ContactNode(c)]);
  }

  /**
   * The graph of IngestThree's builder: one contact node, joined to ME
   * (the record was personal) and to all three communities, labelled with
   * its longest alias; "Bob" has a single community and is left out.
   */
  method PhoneJoinsPlatforms() returns (g: Graph)
    ensures exists c: Contact ::
              && g.nodes.Keys == {Me, CommunityNode(Climbing), CommunityNode(Chess), CommunityNode(Choir), ContactNode(c)}
              && g.edges.Keys == {{Me, ContactNode(c)}, {ContactNode(c), CommunityNode(Climbing)},
                                  {ContactNode(c), CommunityNode(Chess)}, {ContactNode(c), CommunityNode(Choir)}}
              && g.nodes[ContactNode(c)] == "Alice"
  {
    var b, c, d := IngestThree();
    g := b.Build();
    GraphOfThree(g, c, d);
  }

  /** A fresh builder ingests a Telegram record with the alias "x". */
  method StartWithX() returns (b: GraphBuilder, a: Contact, ra: PlatformContact)
    ensures fresh(b) && fresh(a) && b.Valid()
    ensures b.contacts == {a} && "x" in b.contactByName && b.contactByName["x"] == a
    ensures "555" !in b.contactByPhone
    ensures a.platforms == map[Telegram := ra]
  {
    ra := NewRecord(Telegram, {"x"}, {}, {}, false);
    b := new GraphBuilder();
    assert b.Related(ra) == {};
    b.AddRecord(ra);
    a :| b.contacts == {} + {a};
  }

  /**
   * A WhatsApp record with the alias "x" joins the contact "x" is indexed to,
   * which holds no WhatsApp record yet; nothing else changes.
   */
  method JoinByAlias(b: GraphBuilder) returns (rb: PlatformContact)
    requires b.Valid() && "x" in b.contactByName && WhatsApp !in b.contactByName["x"].platforms
    modifies b, b.contacts
    ensures b.Valid() && b.contacts == old(b.contacts) && b.contactByName == old(b.contactByName)
    ensures b.contactByPhone == old(b.contactByPhone)
    ensures b.contactByName["x"].platforms == old(b.contactByName["x"].platforms)[WhatsApp := rb]
    ensures forall c | c in b.contacts && c != b.contactByName["x"] :: unchanged(c)
  {
    rb := NewRecord(WhatsApp, {"x"}, {}, {}, false);
    assert b.Evicted(rb) == {};
    assert b.Related(rb) == {b.contactByName["x"]};
    b.AddRecord(rb);
  }

  /**
   * A Telegram record with the alias "x" and the phone 555: the contact "x"
   * is indexed to already holds a Telegram record, so the alias is evicted,
   * nothing is related, and the record becomes a new contact that now owns
   * both "x" and 555 in the indexes.
   */
  method EvictAndCreate(b: GraphBuilder) returns (c: Contact, rc: PlatformContact)
    requires b.Valid() && "x" in b.contactByName && Telegram in b.contactByName["x"].platforms
    requires "555" !in b.contactByPhone
    modifies b, b.contacts
    ensures b.Valid() && fresh(c) && b.contacts == old(b.contacts) + {c}
    ensures forall d | d in old(b.contacts) :: unchanged(d)
    ensures c.platforms == map[Telegram := rc]
    ensures "x" in b.contactByName && b.contactByName["x"] == c
    ensures "555" in b.contactByPhone && b.contactByPhone["555"] == c
  {
    rc := NewRecord(Telegram, {"x"}, {"555"}, {}, false);
    var contacts0 := b.contacts;
    assert b.Evicted(rc) == {"x"};
    assert b.Related(rc) == {};
    b.AddRecord(rc);
    c :| c !in contacts0 && b.contacts == contacts0 + {c};
  }

  /**
   * Ingesting A (Telegram, "x"), B (WhatsApp, "x"), C (Telegram, "x", phone
   * 555) in this order: B joins A's contact through the alias, and C, whose
   * platform A's contact already holds, becomes a contact of its own.
   */
  method OrderABC() returns (b: GraphBuilder, a: Contact, c: Contact, ra: PlatformContact, rb: PlatformContact, rc: PlatformContact)
    ensures b.contacts == {a, c} && a != c
    ensures a.platforms == map[Telegram := ra, WhatsApp := rb]
    ensures c.platforms == map[Telegram := rc]
  {
    b, a, ra := StartWithX();
    rb := JoinByAlias(b);
    c, rc := EvictAndCreate(b);
  }

  /**
   * The same three records in the order A, C, B: C again becomes a contact
   * of its own and takes over the alias "x", so B now joins C's contact
   * instead of A's.
   */
  method OrderACB() returns (b: GraphBuilder, a: Contact, c: Contact, ra: PlatformContact, rb: PlatformContact, rc: PlatformContact)
    ensures b.contacts == {a, c} && a != c
    ensures a.platforms == map[Telegram := ra]
    ensures c.platforms == map[Telegram := rc, WhatsApp := rb]
  {
    b, a, ra := StartWithX();
    c, rc := EvictAndCreate(b);
    rb := JoinByAlias(b);
  }

  /**
   * Two fresh records start out alike; giving one of them its first alias
   * leaves the other without any, whatever default they started from.
   */
  method FirstAliasIsPrivate() returns (a: PlatformContact, b: PlatformContact)
    ensures a.platform == b.platform == Telegram
    ensures a.names == {"x"} && b.names == {}
    ensures a.phones == b.phones == {} && a.communities == b.communities == {}
  {
    a := Telegram.Contact();
    b := Telegram.Contact();
    a.AddName("x");
  }
}
