/** The schema watcher's heuristics: how critical a newly seen method is, judged by its name. */
module Classifier {
  import opened Sequences
  import opened Text

  datatype Level = Critical | High | Medium | Low

  predicate Contains(s: string, word: string)
    decreases |s|
  {
    |word| <= |s| && (s[..|word|] == word || Contains(s[1..], word))
  }

  predicate ContainsAny(s: string, words: seq<string>) {
    exists w :: w in words && Contains(s, w)
  }

  predicate IsPunctuation(c: char) {
    c == '_' || c == '-' || c == '.'
  }

  function NoPunctuation(s: string): string {
    if s == [] then []
    else (if IsPunctuation(s[0]) then [] else [s[0]]) + NoPunctuation(s[1..])
  }

  /** The checks in their order; the first that applies decides. `upper` and `lower` are the name in
      one case, `bare` is the upper-case name without its punctuation. */
  function Judge(upper: string, lower: string, bare: string): Level {
    if Contains(bare, "APIKEY") || Contains(upper, "API_KEY") then High
    else if Contains(bare, "SERVICEACCOUNT") || Contains(upper, "SERVICE_ACCOUNT") then
      if Contains(upper, "DELETE") then Critical else High
    else if Contains(bare, "ROLEBINDING") || Contains(upper, "ROLE_BINDING") then High
    else if ContainsAny(bare, ["DELETEUSER", "CREATEUSER", "UPDATEUSER", "DELETEINVITATION", "CREATEINVITATION",
                               "INVITEUSER"]) then High
    else if ContainsAny(upper, ["IDENTITYPROVIDER", "IDENTITYPOOL", "IDENTITY_PROVIDER", "IDENTITY_POOL"]) then
      if Contains(upper, "DELETE") then Critical else High
    else if ContainsAny(upper, ["PRIVATELINKATTACHMENT", "PRIVATELINKATTACHMENTCONNECTION"]) then High
    else if ContainsAny(upper, ["PRIVATELINK", "PEERING", "TRANSITGATEWAY", "NETWORKLINK"]) then
      if Contains(upper, "DELETE") then Critical else High
    else JudgeOtherEntity(upper, lower, bare)
  }

  /** The second half of the checks for particular entities. */
  function JudgeOtherEntity(upper: string, lower: string, bare: string): Level {
    if ContainsAny(bare, ["CLUSTERLINK", "CLUSTERLINKS", "MIRRORTOPIC"]) then High
    else if ContainsAny(upper, ["BYOK", "ENCRYPT", "DECRYPT"]) then High
    else if Contains(upper, "ACLS") && ContainsAny(upper, ["CREATE", "DELETE"]) then High
    else if Contains(bare, "DELETEGROUPS") then High
    else if ContainsAny(bare, ["DELETESUBJECT", "DELETESCHEMAVERSION"]) then High
    else if ContainsAny(bare, ["IPFILTER", "IPGROUP", "DNSFORWARDER", "INTEGRATION", "SSOGROUPMAPPING",
                               "GROUPMAPPING"]) then High
    else JudgeOperation(upper, lower, bare)
  }

  /** The checks for kinds of operations. */
  function JudgeOperation(upper: string, lower: string, bare: string): Level {
    if Contains(upper, "AUDIT") && ContainsAny(upper, ["UPDATE", "DELETE"]) then Critical
    else if Contains(upper, "PAUSE") && Contains(upper, "CLUSTER") then Critical
    else if ContainsAny(upper, ["DELETE", "REMOVE", "PURGE", "DROP"]) then
      if Contains(bare, "OFFSETDELETE") then Medium else Critical
    else if Contains(upper, "CREATE") then Medium
    else if ContainsAny(upper, ["UPDATE", "ALTER", "MODIFY", "PATCH"]) then Medium
    else if ContainsAny(upper, ["PAUSE", "RESUME", "SUSPEND", "RESTART"]) then Medium
    else if ContainsAny(upper, ["GET", "LIST", "DESCRIBE", "FETCH", "READ", "FIND", "SHOW"]) then Low
    else if ContainsAny(lower, ["authenticate", "authorize", "authentication", "authorization"]) then Low
    else if ContainsAny(upper, ["PRODUCE", "FETCH", "OFFSET", "HEARTBEAT", "METADATA"]) then Low
    else Medium
  }

  function LevelOf(name: string): Level {
    Judge(Upper(name), Lower(name), NoPunctuation(Upper(name)))
  }

  // ---------------------------------------------------------------------------------------
  // What the levels mean
  // ---------------------------------------------------------------------------------------

  predicate Destructive(name: string) {
    ContainsAny(Upper(name), ["DELETE", "REMOVE", "PURGE", "DROP"])
  }

  predicate OccursAt(s: string, word: string, i: nat) {
    i + |word| <= |s| && s[i..i + |word|] == word
  }

  /** `Contains` is Python's substring test. */
  lemma {:induction false} ContainsMeans(s: string, word: string)
    ensures Contains(s, word) <==> exists i :: OccursAt(s, word, i)
    decreases |s|
  {
    if |word| <= |s| {
      if s[..|word|] == word {
        assert OccursAt(s, word, 0);
      } else {
        ContainsMeans(s[1..], word);
        if i: nat :| OccursAt(s, word, i) {
          assert i > 0 && s[1..][i - 1..i - 1 + |word|] == s[i..i + |word|];
          assert OccursAt(s[1..], word, i - 1);
        }
        if i: nat :| OccursAt(s[1..], word, i) {
          assert s[1..][i..i + |word|] == s[i + 1..i + 1 + |word|];
          assert OccursAt(s, word, i + 1);
        }
      }
    }
  }

  /** Deleting, removing, purging or dropping is never LOW, and it is MEDIUM only for a consumer
      group's offset deletion; a method that is LOW reads, authenticates, produces or consumes. */
  lemma DestructiveIsSerious(name: string)
    ensures Destructive(name) ==> LevelOf(name) != Low
    ensures Destructive(name) && LevelOf(name) == Medium ==> Contains(NoPunctuation(Upper(name)), "OFFSETDELETE")
    ensures LevelOf(name) == Low ==>
      || ContainsAny(Upper(name), ["GET", "LIST", "DESCRIBE", "FETCH", "READ", "FIND", "SHOW"])
      || ContainsAny(Lower(name), ["authenticate", "authorize", "authentication", "authorization"])
      || ContainsAny(Upper(name), ["PRODUCE", "FETCH", "OFFSET", "HEARTBEAT", "METADATA"])
  {
  }

  // Which deletions are critical

  const ENTITIES: nat := 13

  /** The checks for particular entities, which come before those for kinds of operations. */
  predicate Claims(name: string, i: nat) {
    var upper, bare := Upper(name), NoPunctuation(Upper(name));
    match i
    case 0 => Contains(bare, "APIKEY") || Contains(upper, "API_KEY")
    case 1 => Contains(bare, "SERVICEACCOUNT") || Contains(upper, "SERVICE_ACCOUNT")
    case 2 => Contains(bare, "ROLEBINDING") || Contains(upper, "ROLE_BINDING")
    case 3 => ContainsAny(bare, ["DELETEUSER", "CREATEUSER", "UPDATEUSER", "DELETEINVITATION", "CREATEINVITATION",
                                 "INVITEUSER"])
    case 4 => ContainsAny(upper, ["IDENTITYPROVIDER", "IDENTITYPOOL", "IDENTITY_PROVIDER", "IDENTITY_POOL"])
    case 5 => ContainsAny(upper, ["PRIVATELINKATTACHMENT", "PRIVATELINKATTACHMENTCONNECTION"])
    case 6 => ContainsAny(upper, ["PRIVATELINK", "PEERING", "TRANSITGATEWAY", "NETWORKLINK"])
    case 7 => ContainsAny(bare, ["CLUSTERLINK", "CLUSTERLINKS", "MIRRORTOPIC"])
    case 8 => ContainsAny(upper, ["BYOK", "ENCRYPT", "DECRYPT"])
    case 9 => AclChange(name)
    case 10 => Contains(bare, "DELETEGROUPS")
    case 11 => ContainsAny(bare, ["DELETESUBJECT", "DELETESCHEMAVERSION"])
    case 12 => ContainsAny(bare, ["IPFILTER", "IPGROUP", "DNSFORWARDER", "INTEGRATION", "SSOGROUPMAPPING",
                                  "GROUPMAPPING"])
    case _ => false
  }

  predicate AclChange(name: string) {
    Contains(Upper(name), "ACLS") && ContainsAny(Upper(name), ["CREATE", "DELETE"])
  }

  /** The first entity that claims the name, or ENTITIES. */
  function FirstClaim(name: string, from: nat): (i: nat)
    requires from <= ENTITIES
    ensures from <= i <= ENTITIES
    ensures forall j | from <= j < i :: !Claims(name, j)
    ensures i < ENTITIES ==> Claims(name, i)
    decreases ENTITIES - from
  {
    if from == ENTITIES || Claims(name, from) then from else FirstClaim(name, from + 1)
  }

  /** Service accounts, identities and networks: the entities whose deletion is critical. */
  predicate IsVital(i: nat) {
    i == 1 || i == 4 || i == 6
  }

  predicate EarlierHigh(name: string) {
    var i := FirstClaim(name, 0);
    i < ENTITIES && !(IsVital(i) && Contains(Upper(name), "DELETE"))
  }

  /** A consumer group's offset deletion that is nothing else. */
  predicate PlainOffsetDeletion(name: string) {
    && FirstClaim(name, 0) == ENTITIES && Contains(NoPunctuation(Upper(name)), "OFFSETDELETE")
    && !(Contains(Upper(name), "AUDIT") && ContainsAny(Upper(name), ["UPDATE", "DELETE"]))
    && !(Contains(Upper(name), "PAUSE") && Contains(Upper(name), "CLUSTER"))
  }

  /** What the entity checks say. */
  function EntityLevel(name: string, i: nat): Level {
    if IsVital(i) && Contains(Upper(name), "DELETE") then Critical else High
  }

  /** What the remaining checks say of a deletion. */
  function DeletionLevel(name: string): Level {
    var upper, bare := Upper(name), NoPunctuation(Upper(name));
    if Contains(upper, "AUDIT") && ContainsAny(upper, ["UPDATE", "DELETE"]) then Critical
    else if Contains(upper, "PAUSE") && Contains(upper, "CLUSTER") then Critical
    else if Contains(bare, "OFFSETDELETE") then Medium
    else Critical
  }

  lemma EarlyClaim(name: string, i: nat)
    requires i <= 6 && Claims(name, i) && forall j | 0 <= j < i :: !Claims(name, j)
    ensures LevelOf(name) == EntityLevel(name, i)
  {
    assert i > 0 ==> !Claims(name, 0);
    assert i > 1 ==> !Claims(name, 1);
    assert i > 2 ==> !Claims(name, 2);
    assert i > 3 ==> !Claims(name, 3);
    assert i > 4 ==> !Claims(name, 4);
    assert i > 5 ==> !Claims(name, 5);
  }

  lemma PastEarlyClaims(name: string)
    requires forall j | 0 <= j < 7 :: !Claims(name, j)
    ensures LevelOf(name) == JudgeOtherEntity(Upper(name), Lower(name), NoPunctuation(Upper(name)))
  {
    assert !Claims(name, 0) && !Claims(name, 1) && !Claims(name, 2) && !Claims(name, 3);
    assert !Claims(name, 4) && !Claims(name, 5) && !Claims(name, 6);
  }

  lemma LateClaim(name: string, i: nat)
    requires 6 < i <= ENTITIES && (i < ENTITIES ==> Claims(name, i)) && forall j | 7 <= j < i :: !Claims(name, j)
    ensures var level := JudgeOtherEntity(Upper(name), Lower(name), NoPunctuation(Upper(name)));
            && (i < ENTITIES ==> level == High)
            && (i == ENTITIES && Destructive(name) ==> level == DeletionLevel(name))
  {
    assert i > 7 ==> !Claims(name, 7);
    assert i > 8 ==> !Claims(name, 8);
    assert i > 9 ==> !Claims(name, 9);
    assert i > 10 ==> !Claims(name, 10);
    assert i > 11 ==> !Claims(name, 11);
    assert i > 12 ==> !Claims(name, 12);
  }

  /** The first entity that claims a name decides. */
  lemma LevelByClaim(name: string)
    ensures var i := FirstClaim(name, 0);
            && (i < ENTITIES ==> LevelOf(name) == EntityLevel(name, i))
            && (i == ENTITIES && Destructive(name) ==> LevelOf(name) == DeletionLevel(name))
  {
    var i := FirstClaim(name, 0);
    if i <= 6 {
      EarlyClaim(name, i);
    } else {
      PastEarlyClaims(name);
      LateClaim(name, i);
    }
  }

  /** Exactly which deletions, removals, purges and drops are critical: those that no earlier check
      makes HIGH and that do not merely delete a consumer group's offsets, which is MEDIUM. */
  lemma DeletionsExactly(name: string)
    ensures Destructive(name) ==> (LevelOf(name) == Critical <==> !EarlierHigh(name) && !PlainOffsetDeletion(name))
    ensures Destructive(name) ==> (LevelOf(name) == High <==> EarlierHigh(name))
    ensures Destructive(name) ==> (LevelOf(name) == Medium <==> PlainOffsetDeletion(name))
  {
    LevelByClaim(name);
  }

  // Every level

  /** No check for a particular entity applies. */
  predicate Unclaimed(name: string) {
    forall i | 0 <= i < ENTITIES :: !Claims(name, i)
  }

  /** Changes of the audit configuration and the pausing of a cluster. */
  predicate TouchesAudit(name: string) {
    Contains(Upper(name), "AUDIT") && (Contains(Upper(name), "UPDATE") || Contains(Upper(name), "DELETE"))
  }

  predicate PausesCluster(name: string) {
    Contains(Upper(name), "PAUSE") && Contains(Upper(name), "CLUSTER")
  }

  /** The name says that something is created, altered, paused or started again. */
  predicate Alters(name: string) {
    exists w :: Contains(Upper(name), w) && w in
      {"CREATE", "UPDATE", "ALTER", "MODIFY", "PATCH", "PAUSE", "RESUME", "SUSPEND", "RESTART"}
  }

  /** The name says that something is read, authenticated, produced or consumed. */
  predicate OnlyReads(name: string) {
    || (exists w :: Contains(Upper(name), w) && w in
          {"GET", "LIST", "DESCRIBE", "FETCH", "READ", "FIND", "SHOW", "PRODUCE", "OFFSET", "HEARTBEAT", "METADATA"})
    || (exists w :: Contains(Lower(name), w) && w in {"authenticate", "authorize", "authentication", "authorization"})
  }

  lemma UnclaimedIs(name: string)
    ensures Unclaimed(name) <==> FirstClaim(name, 0) == ENTITIES
  {
  }

  lemma UnclaimedJudgement(name: string)
    requires Unclaimed(name)
    ensures LevelOf(name) == JudgeOperation(Upper(name), Lower(name), NoPunctuation(Upper(name)))
  {
    PastEarlyClaims(name);
    assert !Claims(name, 7) && !Claims(name, 8) && !Claims(name, 9) && !Claims(name, 10);
    assert !Claims(name, 11) && !Claims(name, 12);
  }

  lemma JudgeExactly(name: string)
    ensures var level := JudgeOperation(Upper(name), Lower(name), NoPunctuation(Upper(name)));
            && level != High
            && (level == Critical <==>
                  || TouchesAudit(name) || PausesCluster(name)
                  || (Destructive(name) && !Contains(NoPunctuation(Upper(name)), "OFFSETDELETE")))
            && (level == Low <==>
                  && !TouchesAudit(name) && !PausesCluster(name) && !Destructive(name) && !Alters(name)
                  && OnlyReads(name))
  {
    var upper, lower := Upper(name), Lower(name);
    assert TouchesAudit(name) <==> Contains(upper, "AUDIT") && ContainsAny(upper, ["UPDATE", "DELETE"]);
    assert Alters(name) <==>
      || Contains(upper, "CREATE") || ContainsAny(upper, ["UPDATE", "ALTER", "MODIFY", "PATCH"])
      || ContainsAny(upper, ["PAUSE", "RESUME", "SUSPEND", "RESTART"]);
    assert OnlyReads(name) <==>
      || ContainsAny(upper, ["GET", "LIST", "DESCRIBE", "FETCH", "READ", "FIND", "SHOW"])
      || ContainsAny(lower, ["authenticate", "authorize", "authentication", "authorization"])
      || ContainsAny(upper, ["PRODUCE", "FETCH", "OFFSET", "HEARTBEAT", "METADATA"]);
  }

  /** Exactly when each level is given, for every name. */
  lemma LevelExactly(name: string)
    ensures LevelOf(name) == High <==> EarlierHigh(name)
    ensures LevelOf(name) == Critical <==>
      if Unclaimed(name)
      then TouchesAudit(name) || PausesCluster(name)
           || (Destructive(name) && !Contains(NoPunctuation(Upper(name)), "OFFSETDELETE"))
      else IsVital(FirstClaim(name, 0)) && Contains(Upper(name), "DELETE")
    ensures LevelOf(name) == Low <==>
      && Unclaimed(name) && !TouchesAudit(name) && !PausesCluster(name) && !Destructive(name) && !Alters(name)
      && OnlyReads(name)
  {
    UnclaimedIs(name);
    if Unclaimed(name) {
      UnclaimedJudgement(name);
      JudgeExactly(name);
    } else {
      LevelByClaim(name);
    }
  }

  /** Exactly which ACL changes are critical: those whose name an earlier check for a service account,
      an identity or a network claims first, and which delete. All others are HIGH. */
  lemma AclChangesExactly(name: string)
    ensures AclChange(name) ==>
      (LevelOf(name) == Critical <==> IsVital(FirstClaim(name, 0)) && Contains(Upper(name), "DELETE"))
    ensures AclChange(name) ==> (LevelOf(name) == High <==> EarlierHigh(name))
    ensures AclChange(name) && (forall i | 0 <= i < 9 :: !Claims(name, i)) ==> LevelOf(name) == High
  {
    LevelByClaim(name);
    if AclChange(name) {
      assert Claims(name, 9);
      assert FirstClaim(name, 0) <= 9;
    }
  }

  lemma ContainsParts(a: string, b: string)
    ensures Contains(a + b, a) && Contains(a + b, b)
  {
    assert (a + b)[0..|a|] == a && (a + b)[|a|..|a| + |b|] == b;
    assert OccursAt(a + b, a, 0) && OccursAt(a + b, b, |a|);
    ContainsMeans(a + b, a);
    ContainsMeans(a + b, b);
  }

  lemma AlreadyUpper(name: string)
    requires forall c | c in name :: 'A' <= c <= 'Z'
    ensures Upper(name) == name && NoPunctuation(name) == name
  {
    forall i | 0 <= i < |name| ensures Upper(name)[i] == name[i] {
      assert name[i] in name;
    }
    assert Upper(name) == name;
    NoPunctuationIn(name);
  }

  /** An API key's deletion is HIGH. */
  lemma DeletionsCanBeHigh()
    ensures exists name :: Destructive(name) && LevelOf(name) == High
  {
    var name := "DELETE" + "APIKEY";
    AlreadyUpper(name);
    ContainsParts("DELETE", "APIKEY");
    DeletesApiKey(name);
  }

  lemma DeletesApiKey(name: string)
    requires Contains(Upper(name), "DELETE") && Contains(NoPunctuation(Upper(name)), "APIKEY")
    ensures Destructive(name) && LevelOf(name) == High
  {
    assert "DELETE" in ["DELETE", "REMOVE", "PURGE", "DROP"];
  }

  lemma {:induction false} TooShort(s: string, word: string)
    requires |s| < |word|
    ensures !Contains(s, word)
  {
  }

  /** A word does not occur where its first letter does not. */
  lemma NoFirstLetter(s: string, word: string)
    requires word != "" && word[0] !in s
    ensures !Contains(s, word)
  {
    ContainsMeans(s, word);
  }

  /** A short upper-case name without a P is no service account, identity or network. */
  lemma ShortIsNotVital(name: string)
    requires (forall c | c in name :: 'A' <= c <= 'Z' && c != 'P') && |name| <= 10
    ensures !Claims(name, 1) && !Claims(name, 4) && !Claims(name, 6)
  {
    AlreadyUpper(name);
    TooShort(name, "SERVICEACCOUNT");
    TooShort(name, "SERVICE_ACCOUNT");
    TooShort(name, "IDENTITYPROVIDER");
    TooShort(name, "IDENTITYPOOL");
    TooShort(name, "IDENTITY_PROVIDER");
    TooShort(name, "IDENTITY_POOL");
    TooShort(name, "PRIVATELINK");
    NoFirstLetter(name, "PEERING");
    TooShort(name, "TRANSITGATEWAY");
    TooShort(name, "NETWORKLINK");
  }

  /** The deletion of ACLs is HIGH. */
  lemma AclChangesCanBeHigh()
    ensures exists name :: AclChange(name) && LevelOf(name) == High
  {
    var name := "DELETE" + "ACLS";
    ContainsParts("DELETE", "ACLS");
    DeletesAcls(name);
  }

  lemma DeletesAcls(name: string)
    requires (forall c | c in name :: 'A' <= c <= 'Z' && c != 'P') && |name| <= 10
    requires Contains(name, "DELETE") && Contains(name, "ACLS")
    ensures AclChange(name) && LevelOf(name) == High
  {
    AlreadyUpper(name);
    IsAclChange(name);
    ShortIsNotVital(name);
    NothingVital(name);
  }

  lemma IsAclChange(name: string)
    requires Contains(Upper(name), "DELETE") && Contains(Upper(name), "ACLS")
    ensures AclChange(name)
  {
    assert "DELETE" in ["CREATE", "DELETE"];
  }

  lemma NothingVital(name: string)
    requires AclChange(name) && !Claims(name, 1) && !Claims(name, 4) && !Claims(name, 6)
    ensures LevelOf(name) == High
  {
    LevelByClaim(name);
    assert Claims(name, 9);
    assert FirstClaim(name, 0) <= 9;
  }

  /** The level does not depend on the case of the name. */
  lemma CaseBlind(a: string, b: string)
    requires SameUpToCase(a, b)
    ensures LevelOf(a) == LevelOf(b) && (Destructive(a) <==> Destructive(b))
  {
    FoldsTexts(a, b);
  }

  /** A word does not occur where one of its letters does not. */
  lemma Lacks(s: string, word: string, letter: char)
    requires letter in word && letter !in s
    ensures !Contains(s, word)
  {
    ContainsMeans(s, word);
  }

  /** Every name of an entity has one of these letters. */
  predicate IsRare(c: char) {
    c in {'A', 'B', 'F', 'G', 'H', 'N', 'R', 'U', 'V'}
  }

  /** A text without them and without punctuation. */
  predicate IsPlain(s: string) {
    (forall c | c in s :: !IsRare(c)) && NoPunctuation(s) == s
  }

  lemma Without(s: string, word: string, i: nat)
    requires IsPlain(s) && i < |word| && IsRare(word[i])
    ensures !Contains(s, word)
  {
    Lacks(s, word, word[i]);
  }

  lemma AccessIsRare(name: string)
    requires IsPlain(Upper(name))
    ensures !Claims(name, 0) && !Claims(name, 1) && !Claims(name, 2)
  {
    Without(Upper(name), "APIKEY", 0);
    Without(Upper(name), "API_KEY", 0);
    Without(Upper(name), "SERVICEACCOUNT", 2);
    Without(Upper(name), "SERVICE_ACCOUNT", 2);
    Without(Upper(name), "ROLEBINDING", 0);
    Without(Upper(name), "ROLE_BINDING", 0);
  }

  lemma UsersAreRare(name: string)
    requires IsPlain(Upper(name))
    ensures !Claims(name, 3)
  {
    Without(Upper(name), "DELETEUSER", 6);
    Without(Upper(name), "CREATEUSER", 1);
    Without(Upper(name), "UPDATEUSER", 0);
    Without(Upper(name), "DELETEINVITATION", 7);
    Without(Upper(name), "CREATEINVITATION", 1);
    Without(Upper(name), "INVITEUSER", 1);
  }

  lemma IdentitiesAreRare(name: string)
    requires IsPlain(Upper(name))
    ensures !Claims(name, 4)
  {
    Without(Upper(name), "IDENTITYPROVIDER", 3);
    Without(Upper(name), "IDENTITYPOOL", 3);
    Without(Upper(name), "IDENTITY_PROVIDER", 3);
    Without(Upper(name), "IDENTITY_POOL", 3);
  }

  lemma NetworksAreRare(name: string)
    requires IsPlain(Upper(name))
    ensures !Claims(name, 5) && !Claims(name, 6)
  {
    Without(Upper(name), "PRIVATELINKATTACHMENT", 1);
    Without(Upper(name), "PRIVATELINKATTACHMENTCONNECTION", 1);
    Without(Upper(name), "PRIVATELINK", 1);
    Without(Upper(name), "PEERING", 3);
    Without(Upper(name), "TRANSITGATEWAY", 1);
    Without(Upper(name), "NETWORKLINK", 0);
  }

  lemma ClustersAreRare(name: string)
    requires IsPlain(Upper(name))
    ensures !Claims(name, 7) && !Claims(name, 8)
  {
    Without(Upper(name), "CLUSTERLINK", 2);
    Without(Upper(name), "CLUSTERLINKS", 2);
    Without(Upper(name), "MIRRORTOPIC", 2);
    Without(Upper(name), "BYOK", 0);
    Without(Upper(name), "ENCRYPT", 1);
    Without(Upper(name), "DECRYPT", 3);
  }

  lemma GroupsAreRare(name: string)
    requires IsPlain(Upper(name))
    ensures !Claims(name, 9) && !Claims(name, 10) && !Claims(name, 11)
  {
    Without(Upper(name), "ACLS", 0);
    Without(Upper(name), "DELETEGROUPS", 6);
    Without(Upper(name), "DELETESUBJECT", 7);
    Without(Upper(name), "DELETESCHEMAVERSION", 8);
  }

  lemma FiltersAreRare(name: string)
    requires IsPlain(Upper(name))
    ensures !Claims(name, 12)
  {
    Without(Upper(name), "IPFILTER", 2);
    Without(Upper(name), "IPGROUP", 2);
    Without(Upper(name), "DNSFORWARDER", 1);
    Without(Upper(name), "INTEGRATION", 1);
    Without(Upper(name), "SSOGROUPMAPPING", 3);
    Without(Upper(name), "GROUPMAPPING", 0);
  }

  lemma PlainIsUnclaimed(name: string)
    requires IsPlain(Upper(name))
    ensures Unclaimed(name)
  {
    AccessIsRare(name);
    UsersAreRare(name);
    IdentitiesAreRare(name);
    NetworksAreRare(name);
    ClustersAreRare(name);
    GroupsAreRare(name);
    FiltersAreRare(name);
  }

  /** The deletion of something whose name has none of those letters is CRITICAL. */
  lemma PlainDeletion(name: string)
    requires IsPlain(Upper(name)) && Contains(Upper(name), "DELETE")
    ensures Destructive(name) && LevelOf(name) == Critical
  {
    PlainIsUnclaimed(name);
    Without(Upper(name), "OFFSETDELETE", 1);
    assert "DELETE" in ["DELETE", "REMOVE", "PURGE", "DROP"];
    LevelExactly(name);
  }

  lemma DeletesPlain(rest: string)
    requires forall c | c in rest :: !IsRare(c) && c !in "_-."
    ensures IsPlain("DELETE" + rest) && Contains("DELETE" + rest, "DELETE")
  {
    ContainsParts("DELETE", rest);
    NoPunctuationIn("DELETE" + rest);
  }

  /** However it is spelled, the deletion of topics is CRITICAL. */
  lemma DeleteTopicsIsCritical(name: string)
    requires SameUpToCase(name, "DeleteTopics")
    ensures Destructive(name) && LevelOf(name) == Critical
  {
    FoldsTexts(name, "DeleteTopics");
    assert Upper("DeleteTopics") == "DELETE" + "TOPICS";
    DeletesPlain("TOPICS");
    PlainDeletion(name);
  }

  lemma {:induction false} NoPunctuationConcat(a: string, b: string)
    ensures NoPunctuation(a + b) == NoPunctuation(a) + NoPunctuation(b)
  {
    if a == [] {
      assert a + b == b;
    } else {
      NoPunctuationConcat(a[1..], b);
      var first := if IsPunctuation(a[0]) then [] else [a[0]];
      assert (a + b)[0] == a[0] && (a + b)[1..] == a[1..] + b;
      assert first + (NoPunctuation(a[1..]) + NoPunctuation(b)) == (first + NoPunctuation(a[1..])) + NoPunctuation(b);
    }
  }

  /** What a name contains it still contains when its punctuation is taken out of both. */
  lemma BareContains(s: string, word: string)
    requires Contains(s, word)
    ensures Contains(NoPunctuation(s), NoPunctuation(word))
  {
    ContainsMeans(s, word);
    var i: nat :| OccursAt(s, word, i);
    var a, b := s[..i], s[i + |word|..];
    assert s == a + word + b;
    NoPunctuationConcat(a + word, b);
    NoPunctuationConcat(a, word);
    var bare, n := NoPunctuation(s), |NoPunctuation(a)|;
    ContainsMeans(bare, NoPunctuation(word));
    assert OccursAt(bare, NoPunctuation(word), n);
  }

  /** The checks that look for a name with underscores add nothing to those that look for it in the
      bare name: the first three of them could be left out. */
  lemma UnderscoresAreRedundant(name: string)
    ensures var upper, bare := Upper(name), NoPunctuation(Upper(name));
            && (Contains(upper, "API_KEY") ==> Contains(bare, "APIKEY"))
            && (Contains(upper, "SERVICE_ACCOUNT") ==> Contains(bare, "SERVICEACCOUNT"))
            && (Contains(upper, "ROLE_BINDING") ==> Contains(bare, "ROLEBINDING"))
  {
    JoinedContains(Upper(name), "API", "KEY", "API_KEY", "APIKEY");
    JoinedContains(Upper(name), "SERVICE", "ACCOUNT", "SERVICE_ACCOUNT", "SERVICEACCOUNT");
    JoinedContains(Upper(name), "ROLE", "BINDING", "ROLE_BINDING", "ROLEBINDING");
  }

  lemma PunctuationIs(c: char)
    ensures IsPunctuation(c) <==> c in "_-."
  {
    assert "_-."[0] == '_' && "_-."[1] == '-' && "_-."[2] == '.';
  }

  /** A text without `_`, `-` and `.` is bare, and putting one of them anywhere changes nothing. */
  lemma PunctuationVanishes(a: string, c: char, b: string)
    requires c in "_-."
    ensures NoPunctuation(a + [c] + b) == NoPunctuation(a + b)
  {
    NoPunctuationConcat(a + [c], b);
    NoPunctuationConcat(a, [c]);
    NoPunctuationConcat(a, b);
    PunctuationIs(c);
    assert [c][1..] == [];
    assert NoPunctuation([c]) == [];
    assert NoPunctuation(a) + [] == NoPunctuation(a);
  }

  lemma {:induction false} NoPunctuationIn(s: string)
    requires forall c | c in s :: c !in "_-."
    ensures NoPunctuation(s) == s
  {
    if s != [] {
      PunctuationIs(s[0]);
      NoPunctuationIn(s[1..]);
    }
  }

  lemma Joined(a: string, b: string)
    requires (forall c | c in a :: c !in "_-.") && (forall c | c in b :: c !in "_-.")
    ensures NoPunctuation(a + "_" + b) == a + b
  {
    NoPunctuationConcat(a + "_", b);
    NoPunctuationConcat(a, "_");
    NoPunctuationIn(a);
    NoPunctuationIn(b);
    assert "_"[1..] == "";
    assert a + [] == a;
  }

  lemma JoinedContains(s: string, a: string, b: string, joined: string, bare: string)
    requires (forall c | c in a :: c !in "_-.") && (forall c | c in b :: c !in "_-.")
    requires joined == a + "_" + b && bare == a + b
    ensures Contains(s, joined) ==> Contains(NoPunctuation(s), bare)
  {
    Joined(a, b);
    if Contains(s, joined) {
      BareContains(s, joined);
    }
  }

  // ---------------------------------------------------------------------------------------
  // The four lists
  // ---------------------------------------------------------------------------------------

  datatype Classification = Classification(critical: seq<string>, high: seq<string>, medium: seq<string>,
                                           low: seq<string>)

  function Marked(methods: seq<string>, level: Level): (flags: seq<bool>)
    ensures |flags| == |methods|
  {
    seq(|methods|, i requires 0 <= i < |methods| => LevelOf(methods[i]) == level)
  }

  /** The methods of one level, in their order. */
  function OfLevel(methods: seq<string>, level: Level): seq<string> {
    Pick(methods, Marked(methods, level), true)
  }

  lemma OfLevelSnoc(methods: seq<string>, m: string, level: Level)
    ensures OfLevel(methods + [m], level) == OfLevel(methods, level) + (if LevelOf(m) == level then [m] else [])
  {
    assert Marked(methods + [m], level) == Marked(methods, level) + [LevelOf(m) == level];
    PickSnoc(methods, Marked(methods, level), m, LevelOf(m) == level, true);
  }

  lemma OfLevelMember(methods: seq<string>, level: Level, m: string)
    ensures m in OfLevel(methods, level) <==> m in methods && LevelOf(m) == level
  {
    PickMember(methods, Marked(methods, level), true, m);
  }

  ghost function Total(methods: seq<string>): multiset<string> {
    multiset(OfLevel(methods, Critical)) + multiset(OfLevel(methods, High))
    + multiset(OfLevel(methods, Medium)) + multiset(OfLevel(methods, Low))
  }

  lemma OfLevelCounts(methods: seq<string>, m: string, level: Level)
    ensures multiset(OfLevel(methods + [m], level))
         == multiset(OfLevel(methods, level)) + (if LevelOf(m) == level then multiset{m} else multiset{})
  {
    OfLevelSnoc(methods, m, level);
  }

  lemma TotalSnoc(methods: seq<string>, m: string)
    ensures Total(methods + [m]) == Total(methods) + multiset{m}
  {
    OfLevelCounts(methods, m, Critical);
    OfLevelCounts(methods, m, High);
    OfLevelCounts(methods, m, Medium);
    OfLevelCounts(methods, m, Low);
  }

  /** Every method goes to exactly one list, as often as it occurs. */
  lemma {:induction false} ListsPartition(methods: seq<string>)
    ensures Total(methods) == multiset(methods)
  {
    if methods != [] {
      var n := |methods| - 1;
      ListsPartition(methods[..n]);
      TotalSnoc(methods[..n], methods[n]);
      Unsnoc(methods);
    }
  }

  /** The four lists divide the input, each in the input's order, by level; no destructive method is
      in the LOW list, and those in the MEDIUM list delete offsets. */
  lemma ClassificationCorrect(methods: seq<string>)
    ensures Total(methods) == multiset(methods)
    ensures forall level :: IsSubsequence(OfLevel(methods, level), methods)
    ensures forall level, m | m in OfLevel(methods, level) :: LevelOf(m) == level
    ensures forall m | m in OfLevel(methods, Low) :: !Destructive(m)
    ensures forall m | m in OfLevel(methods, Medium) && Destructive(m) ::
            Contains(NoPunctuation(Upper(m)), "OFFSETDELETE")
  {
    ListsPartition(methods);
    forall level ensures IsSubsequence(OfLevel(methods, level), methods) {
      PickKeepsOrder(methods, Marked(methods, level), true);
    }
    forall level, m | m in OfLevel(methods, level) ensures LevelOf(m) == level {
      OfLevelMember(methods, level, m);
    }
    forall m | m in OfLevel(methods, Low) ensures !Destructive(m) {
      OfLevelMember(methods, Low, m);
      DestructiveIsSerious(m);
    }
    forall m | m in OfLevel(methods, Medium) && Destructive(m)
      ensures Contains(NoPunctuation(Upper(m)), "OFFSETDELETE")
    {
      OfLevelMember(methods, Medium, m);
      DestructiveIsSerious(m);
    }
  }

  function Classified(methods: seq<string>): Classification {
    Classification(OfLevel(methods, Critical), OfLevel(methods, High), OfLevel(methods, Medium), OfLevel(methods, Low))
  }

  /** The method goes to the end of the list of its level. */
  function Listed(c: Classification, level: Level, m: string): Classification {
    match level
    case Critical => c.(critical := c.critical + [m])
    case High => c.(high := c.high + [m])
    case Medium => c.(medium := c.medium + [m])
    case Low => c.(low := c.low + [m])
  }

  /** `classify_new_methods`. */
  method ClassifyNewMethods(methods: seq<string>) returns (c: Classification)
    ensures c == Classified(methods)
    ensures multiset(c.critical) + multiset(c.high) + multiset(c.medium) + multiset(c.low) == multiset(methods)
    ensures IsSubsequence(c.critical, methods) &&
            (forall m :: m in c.critical <==> m in methods && LevelOf(m) == Critical)
    ensures IsSubsequence(c.high, methods) && (forall m :: m in c.high <==> m in methods && LevelOf(m) == High)
    ensures IsSubsequence(c.medium, methods) && (forall m :: m in c.medium <==> m in methods && LevelOf(m) == Medium)
    ensures IsSubsequence(c.low, methods) && (forall m :: m in c.low <==> m in methods && LevelOf(m) == Low)
  {
    c := Classification([], [], [], []);
    var i := 0;
    while i < |methods|
      invariant 0 <= i <= |methods|
      invariant c == Classified(methods[..i])
    {
      var m := methods[i];
      TakeSnoc(methods, i);
      ClassifiedSnoc(methods[..i], m);
      c := Listed(c, LevelOf(m), m);
      i := i + 1;
    }
    assert methods[..i] == methods;
    ListsPartition(methods);
    ListIsExact(methods, Critical);
    ListIsExact(methods, High);
    ListIsExact(methods, Medium);
    ListIsExact(methods, Low);
  }

  lemma ListIsExact(methods: seq<string>, level: Level)
    ensures IsSubsequence(OfLevel(methods, level), methods)
    ensures forall m :: m in OfLevel(methods, level) <==> m in methods && LevelOf(m) == level
  {
    PickKeepsOrder(methods, Marked(methods, level), true);
    forall m ensures m in OfLevel(methods, level) <==> m in methods && LevelOf(m) == level {
      OfLevelMember(methods, level, m);
    }
  }

  lemma ClassifiedSnoc(methods: seq<string>, m: string)
    ensures Classified(methods + [m]) == Listed(Classified(methods), LevelOf(m), m)
  {
    OfLevelSnoc(methods, m, Critical);
    OfLevelSnoc(methods, m, High);
    OfLevelSnoc(methods, m, Medium);
    OfLevelSnoc(methods, m, Low);
  }
}
