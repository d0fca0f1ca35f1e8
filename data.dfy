/**
 * Value and record types the contact graph is built from: platforms,
 * platform communities, per-platform contact records and merged contacts.
 */
module Data {

  /** A source system (a messaging platform), identified by its name alone. */
  datatype Platform = Platform(name: string)
  {
    /** The community `communityId`, displayed as `name`, on this platform. */
    function Community(communityId: string, name: string): (c: PlatformCommunity)
      ensures c.platform == this && c.id == communityId && c.name == name
    {
      PlatformCommunity(this, communityId, name)
    }

    /** A fresh record for this platform that knows nothing about the person yet. */
    method Contact() returns (pc: PlatformContact)
      ensures fresh(pc)
      ensures pc.platform == this
      ensures pc.names == {} && pc.phones == {} && pc.communities == {} && !pc.personal
    {
      pc := new PlatformContact(this);
    }
  }

  /**
   * A group or channel on a platform. Equality is on all three fields, so
   * renaming a community yields a different value.
   */
  datatype PlatformCommunity = PlatformCommunity(platform: Platform, id: string, name: string)

  /** Value semantics of the frozen dataclass: platforms are equal exactly when their names are. */
  lemma PlatformEquality(p: Platform, q: Platform)
    ensures p == q <==> p.name == q.name
  {
  }

  /** Value semantics of the frozen dataclass: communities are equal exactly when platform, id and display name all are. */
  lemma CommunityEquality(a: PlatformCommunity, b: PlatformCommunity)
    ensures a == b <==> a.platform == b.platform && a.id == b.id && a.name == b.name
  {
  }

  /** The same community under a new display name is a second, distinct community. */
  lemma RenamedCommunityIsDistinct(c: PlatformCommunity, newName: string)
    requires newName != c.name
    ensures c.platform.Community(c.id, newName) != c
  {
  }

  /**
   * One platform's view of a person: aliases, phone numbers, the communities
   * the person is a member of there, and whether the person is a direct
   * contact ("personal"). Filled in by an ingestion step, then handed over.
   */
  class PlatformContact {
    var platform: Platform
    var names: set<string>
    var phones: set<string>
    var communities: set<PlatformCommunity>
    var personal: bool

    constructor (platform: Platform)
      ensures this.platform == platform
      ensures names == {} && phones == {} && communities == {} && !personal
    {
      this.platform := platform;
      names := {};
      phones := {};
      communities := {};
      personal := false;
    }

    /**
     * Adds one alias; only this record's `names` field changes. The source
     * branches on the empty set only to replace a shared frozen default
     * with a set of the record's own (data.py:37-40); sets are values here,
     * so both branches compute the same union.
     */
    method AddName(name: string)
      modifies this`names
      ensures names == old(names) + {name}
    {
      if |names| == 0 {
        names := {name};
      } else {
        names := names + {name};
      }
    }

    /** Adds one phone number; only this record's `phones` field changes. Both branches are the same union, as in AddName. */
    method AddPhone(phone: string)
      modifies this`phones
      ensures phones == old(phones) + {phone}
    {
      if |phones| == 0 {
        phones := {phone};
      } else {
        phones := phones + {phone};
      }
    }

    /** Adds one community membership; only this record's `communities` field changes. Both branches are the same union, as in AddName. */
    method AddCommunity(community: PlatformCommunity)
      modifies this`communities
      ensures communities == old(communities) + {community}
    {
      if |communities| == 0 {
        communities := {community};
      } else {
        communities := communities + {community};
      }
    }
  }

  /**
   * A merged identity: the latest record seen per platform, the union of
   * aliases and communities, and whether any record was personal.
   * Contacts are compared by reference.
   */
  class Contact {
    var platforms: map<Platform, PlatformContact>
    var names: set<string>
    var communities: set<PlatformCommunity>
    var personal: bool

    constructor ()
      ensures platforms == map[] && names == {} && communities == {} && !personal
    {
      platforms := map[];
      names := {};
      communities := {};
      personal := false;
    }
  }
}
