/**
 Org ids and org-scoped names (packages/core/src/org.ts), and the access to Workers KV bound to one org
 (packages/core/src/kv.ts): scoped names are recoverable, and different orgs never reach the same stored name.
 */
module OrgNames {
  import opened Plan
  import opened Text

  const GLOBAL_ORG := "global"

  predicate IsAlphanumeric(c: char) {
    'a' <= c <= 'z' || '0' <= c <= '9'
  }

  /** A DNS label in lower case. */
  predicate IsOrgId(s: string) {
    && 1 <= |s| <= 63
    && IsAlphanumeric(s[0]) && IsAlphanumeric(s[|s| - 1])
    && forall i :: 0 <= i < |s| ==> IsAlphanumeric(s[i]) || s[i] == '-'
  }

  /**
   Which texts are org ids, by how they are built: every lower-case letter and digit is one, and two joined, directly
   or by hyphens, are one, up to 63 characters in all. Nothing that starts or ends with a hyphen is.
   */
  lemma OrgIdsAreBuiltOf(c: char, a: string, hyphens: string, b: string)
    requires forall h :: h in hyphens ==> h == '-'
    ensures IsOrgId([c]) <==> 'a' <= c <= 'z' || '0' <= c <= '9'
    ensures IsOrgId(a) && IsOrgId(b) ==> (IsOrgId(a + hyphens + b) <==> |a| + |hyphens| + |b| <= 63)
    ensures !IsOrgId("") && !IsOrgId("-" + a) && !IsOrgId(a + "-")
  {
    var s := a + hyphens + b;
    if IsOrgId(a) && IsOrgId(b) {
      assert s[0] == a[0] && s[|s| - 1] == b[|b| - 1];
      assert forall i :: 0 <= i < |hyphens| ==> hyphens[i] in hyphens;
    }
    assert ("-" + a)[0] == '-' && (a + "-")[|a|] == '-';
  }

  lemma OrgIdsHoldNoSeparators(org: string)
    requires IsOrgId(org)
    ensures '.' !in org && '_' !in org && '\0' !in org
  {
  }

  function ScopedName(org: string, name: string): string {
    if org == GLOBAL_ORG then name else "org." + org + "." + name
  }

  function OrgOfScopedName(name: string): Option<string> {
    if !StartsWith(name, "org.") then Some(GLOBAL_ORG)
    else
      var end := IndexOf(name, '.', 4);
      var org := if end < 0 then "" else name[4..end];
      if IsOrgId(org) && org != GLOBAL_ORG then Some(org) else None
  }

  /** The names an org's KV access takes: of `global`, none that reads like another org's. */
  predicate Accepts(org: string, name: string) {
    IsOrgId(org) && !(org == GLOBAL_ORG && StartsWith(name, "org."))
  }

  lemma ScopedNameParts(org: string, name: string)
    requires IsOrgId(org) && org != GLOBAL_ORG
    ensures var s := ScopedName(org, name);
            && StartsWith(s, "org.")
            && s[4..] == org + ['.'] + name
            && IndexOf(s, '.', 4) == 4 + |org|
            && s[4..4 + |org|] == org
            && s[4 + |org| + 1..] == name
  {
    var s := ScopedName(org, name);
    assert s == "org." + (org + ['.'] + name);
    assert s[4..] == org + ['.'] + name;
    OrgIdsHoldNoSeparators(org);
    FirstAfter(s, 4, org, '.', name);
  }

  /** The org of a scoped name is recovered from it. */
  lemma OrgIsRecoverable(org: string, name: string)
    requires Accepts(org, name)
    ensures OrgOfScopedName(ScopedName(org, name)) == Some(org)
  {
    if org != GLOBAL_ORG {
      ScopedNameParts(org, name);
    }
  }

  /** Exactly the names of an org are read back as its. */
  lemma OrgOfNameExactlyWhen(org: string, s: string)
    ensures OrgOfScopedName(s) == Some(org) <==> exists name :: Accepts(org, name) && ScopedName(org, name) == s
  {
    if OrgOfScopedName(s) == Some(org) {
      if !StartsWith(s, "org.") {
        assert Accepts(org, s) && ScopedName(org, s) == s;
      } else {
        var end := IndexOf(s, '.', 4);
        var name := s[end + 1..];
        assert s == s[..4] + s[4..end] + [s[end]] + name;
        assert Accepts(org, name) && ScopedName(org, name) == s;
      }
    }
    forall name | Accepts(org, name) && ScopedName(org, name) == s ensures OrgOfScopedName(s) == Some(org) {
      OrgIsRecoverable(org, name);
    }
  }

  /** Two orgs, or two names of one, never reach the same stored name. */
  lemma ScopedNamesAreDisjoint(org: string, name: string, other: string, otherName: string)
    requires Accepts(org, name) && Accepts(other, otherName)
    ensures ScopedName(org, name) == ScopedName(other, otherName) <==> org == other && name == otherName
  {
    OrgIsRecoverable(org, name);
    OrgIsRecoverable(other, otherName);
    if org == other && org != GLOBAL_ORG {
      ScopedNameParts(org, name);
      ScopedNameParts(org, otherName);
    }
  }

  /** The prefix an org's names are listed by matches its names and no other org's. */
  lemma PrefixIsTheOrgs(org: string, other: string, name: string)
    requires IsOrgId(org) && org != GLOBAL_ORG && Accepts(other, name)
    ensures StartsWith(ScopedName(other, name), ScopedName(org, "")) <==> other == org
  {
    var s, prefix := ScopedName(other, name), ScopedName(org, "");
    OrgIsRecoverable(other, name);
    if StartsWith(s, prefix) {
      var rest := s[|prefix|..];
      assert s == prefix + rest;
      assert s == ScopedName(org, rest);
      OrgIsRecoverable(org, rest);
    }
    if other == org {
      assert s[..|prefix|] == prefix;
    }
  }

  // ---- KV access bound to one org ----

  /** A Workers KV namespace. */
  class Namespace {
    var entries: map<string, string>

    constructor ()
      ensures entries == map[]
    {
      entries := map[];
    }

    /** Up to `limit` names with a prefix, and whether they are all. */
    method List(prefix: string, limit: nat) returns (names: set<string>, complete: bool)
      ensures names <= entries.Keys && |names| <= limit
      ensures forall name :: name in names ==> StartsWith(name, prefix)
      ensures complete <==> forall name :: name in entries && StartsWith(name, prefix) ==> name in names
      ensures !complete ==> |names| == limit
    {
      var todo := set name | name in entries && StartsWith(name, prefix);
      names := {};
      while todo != {} && |names| < limit
        invariant names !! todo && |names| <= limit
        invariant names + todo == set name | name in entries && StartsWith(name, prefix)
        decreases todo
      {
        var name :| name in todo;
        names, todo := names + {name}, todo - {name};
      }
      complete := todo == {};
    }
  }

  /** One org's view of the namespace, under names of its own. */
  class OrgKv {
    const kv: Namespace
    const org: string

    constructor (kv: Namespace, org: string)
      requires IsOrgId(org)
      ensures this.kv == kv && this.org == org
    {
      this.kv, this.org := kv, org;
    }

    /** The org's value under a name. */
    ghost function Entry(name: string): Option<string>
      requires Accepts(org, name)
      reads kv
    {
      var s := ScopedName(org, name);
      if s in kv.entries then Some(kv.entries[s]) else None
    }

    /** The name in the namespace; None where the call is refused. */
    function Scoped(name: string): (s: Option<string>)
      requires IsOrgId(org)
      ensures s.Some? <==> Accepts(org, name)
    {
      if org == GLOBAL_ORG && StartsWith(name, "org.") then None else Some(ScopedName(org, name))
    }

    method Get(name: string) returns (refused: bool, value: Option<string>)
      requires IsOrgId(org)
      ensures refused <==> !Accepts(org, name)
      ensures !refused ==> value == Entry(name)
    {
      var s := Scoped(name);
      if s.None? {
        return true, None;
      }
      return false, if s.value in kv.entries then Some(kv.entries[s.value]) else None;
    }

    /** Writes the org's entry: no name of another org, nor another name of it, changes. */
    method Put(name: string, value: string) returns (refused: bool)
      requires IsOrgId(org)
      modifies kv
      ensures refused <==> !Accepts(org, name)
      ensures refused ==> kv.entries == old(kv.entries)
      ensures !refused ==> Entry(name) == Some(value)
      ensures forall other, otherName :: Accepts(other, otherName) && (other != org || otherName != name) ==>
                SameEntry(old(kv.entries), kv.entries, ScopedName(other, otherName))
    {
      var s := Scoped(name);
      if s.None? {
        return true;
      }
      kv.entries := kv.entries[s.value := value];
      forall other, otherName | Accepts(other, otherName) && (other != org || otherName != name)
        ensures ScopedName(other, otherName) != s.value
      {
        ScopedNamesAreDisjoint(org, name, other, otherName);
      }
      return false;
    }

    /**
     One page of a deletion: at most `limit` entries go, each of this org, and it is complete exactly when that was the
     last of them. The `global` org's stored names carry no prefix to list by, so it deletes none.
     */
    method DeletePage(limit: nat) returns (deleted: nat, complete: bool)
      requires IsOrgId(org)
      modifies kv
      ensures kv.entries.Keys <= old(kv.entries).Keys
      ensures forall s :: s in kv.entries ==> kv.entries[s] == old(kv.entries)[s]
      ensures forall other, name :: Accepts(other, name) && other != org ==>
                SameEntry(old(kv.entries), kv.entries, ScopedName(other, name))
      ensures deleted == |old(kv.entries)| - |kv.entries| && deleted <= limit
      ensures org == GLOBAL_ORG ==> complete && kv.entries == old(kv.entries)
      ensures org != GLOBAL_ORG ==> (complete <==> forall name :: Entry(name).None?)
      ensures !complete ==> deleted == limit
    {
      if org == GLOBAL_ORG {
        return 0, true;
      }
      var prefix := ScopedName(org, "");
      var names, all := kv.List(prefix, limit);
      ghost var before := kv.entries;
      kv.entries := kv.entries - names;
      deleted, complete := |names|, all;
      assert before.Keys == kv.entries.Keys + names;
      forall other, name | Accepts(other, name) ensures StartsWith(ScopedName(other, name), prefix) <==> other == org {
        PrefixIsTheOrgs(org, other, name);
      }
      if !complete {
        ghost var s :| s in before && StartsWith(s, prefix) && s !in names;
        assert s == ScopedName(org, s[|prefix|..]);
        assert Entry(s[|prefix|..]).Some?;
      }
    }
  }

  predicate SameEntry(a: map<string, string>, b: map<string, string>, s: string) {
    (s in a <==> s in b) && (s in a && s in b ==> a[s] == b[s])
  }
}
