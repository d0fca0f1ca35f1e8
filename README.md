# contact-graph: identity resolution and graph construction, in Dafny

This project models the core of contact-graph. That core folds per-platform
contact records (one platform's view of a person: aliases, phone numbers,
communities, a "personal" flag) into merged contacts, and derives an
undirected graph from them.

- `data.dfy` (module `Data`) holds the value and record types.
  - `Platform` and `PlatformCommunity` are datatypes, because the source's
    frozen dataclasses compare by value.
  - `PlatformContact` and `Contact` are classes. The source mutates them in
    place, and a `Contact` is compared by reference.
- `analyze.dfy` (module `Analyze`) holds the `GraphBuilder` class. Its state
  is the same as the source's:
  - the contact set;
  - the community registry;
  - the name index and the phone index.
- Ingestion (`add`, `find_related`) is written as imperative methods with
  loops. Each method is proved against ghost specification functions:
  - `Evicted(pc)` is the set of names that collide on the same platform.
  - `Related(pc)` is the set of contacts the evidence points at.
- The builder's invariant, `Valid`, has three parts:
  - both indexes point into `contacts`;
  - every indexed name is an alias of its contact;
  - every contact's communities are registered.
- `build` fills a `Graph` in three loops:
  - the graph's nodes map to their `name` attribute;
  - its edges are two-element node sets, mapped to their `personal` mark;
  - the result is specified by `GraphNodes()` and `GraphEdges()`.
- `scenarios.dfy` (module `Scenarios`) holds concrete runs:
  - a phone number joins a record from a second platform to a contact;
  - a single-community contact stays out of the graph;
  - the same three records, ingested in two orders, group differently.

Facts about the source that shape the model:
- `visualize.py:53-55` chains `GraphBuilder().add(...).build(usernames=True, personal_only=False)`.
  But `analyze.py:39-58` defines `add` with no return value, and `analyze.py:60` defines
  `build(self)` with no parameters. The model follows `analyze.py`:
  - `build` takes no arguments and applies no personal-only filter;
  - its contact label is the whole longest alias, with nothing truncated (analyze.py:70);
  - its only edges are the ME–contact edge (analyze.py:72) and the contact–community
    edges (analyze.py:74), so ME is never joined to a community.
- `PlatformCommunity` has only `platform`, `id` and `name` (data.py:17-20), so a community
  carries no personal flag.
- `Contact` has no phone set (data.py:55-64). The phone index therefore only points into
  `contacts`; it does not point at a contact that lists the phone.
- The grouping depends on ingestion order, while the number of contacts does not, in the
  following case. A is (Telegram, alias "x"). B is (WhatsApp, alias "x"). C is (Telegram,
  alias "x", phone 555).
  - In the order A, B, C, B joins A's contact and C becomes a second contact.
  - In the order A, C, B, C evicts "x" and takes it over, so B joins C's contact.
  - Both orders end with two contacts (`Scenarios.OrderABC`, `Scenarios.OrderACB`).

## Model

| member | source | states |
|---|---|---|
| Data.Platform.Community | data.py:9-10 | the community has this platform, the given id and the given display name |
| Data.Platform.Contact | data.py:12-13 | a fresh record on this platform with no names, phones or communities, not personal |
| Data.PlatformEquality | data.py:5-7 | records the modelling choice, not an operation: as with the frozen dataclass, two platforms are equal iff their names are |
| Data.CommunityEquality | data.py:16-20 | records the modelling choice, not an operation: as with the frozen dataclass, two communities are equal iff platform, id and name all are |
| Data.RenamedCommunityIsDistinct | data.py:16-20 | a consequence of that equality, not an operation: the same platform and id under a new name is a different community |
| Data.PlatformContact.constructor | data.py:23-34 | platform as given, the three sets empty, personal false |
| Data.PlatformContact.AddName | data.py:36-40 | names becomes old names plus the argument; only this record's names field changes |
| Data.PlatformContact.AddPhone | data.py:42-46 | phones becomes old phones plus the argument; only this record's phones field changes |
| Data.PlatformContact.AddCommunity | data.py:48-52 | communities becomes old communities plus the argument; only this record's communities field changes |
| Data.Contact.constructor | data.py:55-64 | no platform slots, no names, no communities, not personal |
| Analyze.GraphBuilder.constructor | analyze.py:13-17 | empty contact set, registry and indexes; the invariant holds |
| Analyze.GraphBuilder.RelatedIff | analyze.py:19-33 | a contact is related iff one of the record's names is indexed to it and it holds no record of the record's platform, or one of the record's phones is indexed to it |
| Analyze.GraphBuilder.EvictedNameIsNoEvidence | analyze.py:22-27 | a name indexed to a contact already holding the record's platform is evicted; that contact is then related only if a phone points at it |
| Analyze.GraphBuilder.ForeignNameIsEvidence | analyze.py:28-29 | a name indexed to a contact without the record's platform is not evicted and makes that contact related |
| Analyze.GraphBuilder.PhoneIsEvidence | analyze.py:30-33 | every contact indexed under one of the record's phones is related, whatever its platforms |
| Analyze.GraphBuilder.LookUpNames | analyze.py:22-29 | the reported duplicates are exactly the evicted names, they are deleted from the name index, and the hits are the contacts the remaining names point at |
| Analyze.GraphBuilder.LookUpPhones | analyze.py:30-33 | the hits are exactly the contacts the record's phones are indexed to |
| Analyze.AddAliases | analyze.py:34-36 | each given contact's aliases become old aliases plus the surviving names |
| Analyze.GraphBuilder.FindRelated | analyze.py:19-37 | the result is Related(pc) and lies in contacts; evicted names leave the name index; related contacts gain the non-evicted names, all other contacts keep theirs; the invariant is kept |
| Analyze.GraphBuilder.MergeRecord | analyze.py:43-46 | every related contact, independently, gets the record in its platform slot, gains its communities and ORs in its personal flag; the invariant is kept |
| Analyze.NewContact | analyze.py:48-52 | a fresh contact with exactly the record's platform slot, names, communities and personal flag |
| Analyze.IndexUnder | analyze.py:55-58 | every given key now maps to the new contact, earlier entries for those keys are overwritten, all other entries are kept |
| Analyze.GraphBuilder.CreateContact | analyze.py:47-58 | exactly one new contact built from the record is added, and all of the record's names and phones are indexed to it; the invariant is kept |
| Analyze.GraphBuilder.MergeIntoRelated | analyze.py:40-46 | registry gains the record's communities; the result is Related(pc); the contact set and phone index are unchanged; evicted names leave the name index; each related contact, independently, gets the record's platform slot, surviving names, communities and personal flag; other contacts are untouched |
| Analyze.GraphBuilder.AddRecord | analyze.py:40-58 | registry gains the record's communities; every existing phone entry keeps its contact; if anything is related, the contact set and phone index are unchanged, related contacts are updated and never merged, and unrelated contacts are untouched; otherwise exactly one new contact is created and indexed; names are aliased as find_related does |
| Analyze.CommunitiesOfMembership | analyze.py:40-41 | a community is in the union of the records' communities iff some record lists it |
| Analyze.GraphBuilder.Add | analyze.py:39-58 | registry becomes old registry plus every record's communities; no contact is removed; aliases, communities, platform slots and the personal flag only grow; every existing phone entry keeps its contact; the invariant is kept |
| Analyze.LongestName | analyze.py:70 | the label is "UNKNOWN" for no aliases, otherwise an alias no other alias is longer than |
| Analyze.AddCommunityNodes | analyze.py:64-65 | a node named after each community is added; other nodes and all edges are kept |
| Analyze.AddMembershipEdges | analyze.py:73-74 | an edge from the contact to each community is added; an edge already present keeps its personal mark; new ones have none; nodes are unchanged |
| Analyze.AddContact | analyze.py:68-74 | a contact with fewer than two communities leaves the graph unchanged; otherwise its node gets a longest alias, and its edges are the ME edge (if personal) and one per community |
| Analyze.AddContacts | analyze.py:67-74 | after the loop, the contact nodes are those of contacts with at least two communities, every contact node carries a longest alias, and the edges are exactly those contacts' edges |
| Analyze.NothingVisited | analyze.py:61-65 | before the contact loop, no contact node and no edge has been emitted |
| Analyze.NodesSoFarStep | analyze.py:68-70 | visiting one more contact adds its node iff it has at least two communities |
| Analyze.LabelledStep | analyze.py:70 | visiting one more contact keeps every contact node labelled with a longest alias |
| Analyze.EdgesSoFarStep | analyze.py:71-74 | visiting one more contact adds its edges iff it has at least two communities; only ME edges are marked personal |
| Analyze.GraphBuilder.Build | analyze.py:60-76 | nodes are ME (named "me"), every registered community (named after it) and every contact with at least two communities (named by a longest alias); edges are exactly GraphEdges(); only edges touching ME are marked personal |
| Analyze.GraphBuilder.ContactNodeIff | analyze.py:67-70 | a contact has a node iff it is known and has at least two communities |
| Analyze.GraphBuilder.MeEdgeIff | analyze.py:71-72 | ME is joined to a contact iff the contact has a node and is personal |
| Analyze.GraphBuilder.MembershipEdgeIff | analyze.py:73-74 | a contact is joined to a community iff the contact has a node and is a member of the community |
| Analyze.GraphBuilder.NoMeCommunityEdge | analyze.py:60-76 | ME is never joined to a community |
| Analyze.GraphBuilder.EdgesJoinNodes | analyze.py:64-74 | under the invariant, both end points of every edge are nodes of the graph |
| Analyze.IndexHitsInsert | analyze.py:22-33 | looking up one more key adds at most the contact it is indexed to |
| Analyze.EdgesOfInsert | analyze.py:67-74 | one more contact adds its edges iff it has at least two communities |
| Analyze.ContactNodesInsert | analyze.py:67-70 | one more contact adds its node iff it has at least two communities |
| Scenarios.NewRecord | data.py:36-52 | a record filled in alias by alias, phone by phone and community by community holds exactly the given sets |
| Scenarios.IngestAlice | analyze.py:47-58 | the first record on an empty builder becomes the only contact, indexed under its phone |
| Scenarios.IngestAl | analyze.py:30-46 | a record from another platform sharing the phone joins that contact; its alias and communities are added and no contact is created |
| Scenarios.IngestBob | analyze.py:47-53 | a record matching nothing becomes a second contact and leaves the first unchanged |
| Scenarios.IngestThree | analyze.py:39-58 | the three records give two contacts, one with both aliases and all three communities |
| Scenarios.LongestOfAliceAl | analyze.py:70 | of the aliases "Alice" and "Al", the label must be "Alice" |
| Scenarios.GraphOfThree | analyze.py:60-76 | build's result for those contacts, written out node by node and edge by edge |
| Scenarios.PhoneJoinsPlatforms | analyze.py:39-76 | exactly one contact node, joined to ME and to all three communities and named "Alice"; the single-community contact has no node |
| Scenarios.StartWithX | analyze.py:47-58 | the record A (Telegram, "x") on an empty builder becomes the only contact, indexed under "x" |
| Scenarios.JoinByAlias | analyze.py:22-46 | a WhatsApp record "x" joins the contact "x" points at; the contact set and indexes are unchanged |
| Scenarios.EvictAndCreate | analyze.py:22-58 | a Telegram record "x" colliding with a Telegram holder evicts "x", relates to nothing, and becomes a new contact that now owns "x" and its phone |
| Scenarios.OrderABC | analyze.py:39-58 | with order A, B, C: B is A's contact's WhatsApp slot and C is a separate contact |
| Scenarios.OrderACB | analyze.py:39-58 | with order A, C, B: A stays alone and B is C's contact's WhatsApp slot |
| Scenarios.FirstAliasIsPrivate | data.py:25-40 | records what value-typed sets give, not proof content: giving one fresh record its first alias leaves another fresh record without aliases |

## Left out

- `save_pickled` / `load_pickled` (data.py:67-74) are not modelled: they are file I/O through pickle.
- `loader/telegram.py` is not part of this model. It is an asynchronous network client with configuration files and interactive input. Records enter the model already built.
- `visualize.py` is not part of this model. It covers components, centrality, label propagation, layout and drawing, which use floating point and randomness.
- networkx is reduced to a map of nodes to their `name` attribute and a map of edges to their `personal` mark.
- The ME node's `type='me'` attribute is not modelled.
- networkx adds a missing end point when an edge is added. The model does not, and `Build` requires `Registered()` instead. Under that invariant every edge end point is already a node (`EdgesJoinNodes`).
- Analyze.LongestName: which longest alias `max(..., key=len)` returns on a tie depends on Python's set iteration order. The contract states only that the label is an alias no other alias is longer than.
- Analyze.GraphBuilder.Add: its contract states only the registry union, what grows and that phone entries keep their contacts, not each record's full effect. The per-record effect is the contract of `AddRecord`, which the loop applies once per record.
- Sets are values in Dafny. The source's shared empty default set (data.py:25) therefore has no counterpart. What it must guarantee is that one record's first alias does not show up in another record, and `FirstAliasIsPrivate` states that.
- Python's set, dict and string operations are modelled by Dafny's mathematical sets, maps and sequences. Hashing and memory are left out.
