/**
 * What the two user registries share: the ordered checks a registration
 * goes through, the case-insensitive duplicate rule, and the
 * `failed_login_attempts` counters (a `defaultdict(int)`) with their total.
 */
module Accounts {
  import opened Text
  import opened Optional
  import opened Deques

  const MinNameLength := 3
  const MaxNameLength := 20
  const MinPasswordLength := 4

  /** The five refusals of register_user, in the order it tries them. */
  datatype RegisterError = EmptyName | NameTooShort | NameTooLong | NameTaken | PasswordTooShort

  datatype RegisterResult = Registered(username: string, sessionId: string) | Refused(error: RegisterError)

  datatype LoginResult = LoggedIn(username: string, sessionId: string) | InvalidCredentials

  /** Python truthiness of an optional string: present and not empty. */
  predicate Truthy(s: Option<string>) {
    s.Some? && s.value != []
  }

  /** `name.lower() in [u.lower() for u in users]` */
  predicate Taken(name: string, existing: set<string>) {
    exists u :: u in existing && Lower(u) == Lower(name)
  }

  /** No two registered names differ only in letter case. */
  predicate CaseDistinct(names: set<string>) {
    forall u, v :: u in names && v in names && Lower(u) == Lower(v) ==> u == v
  }

  /**
   * The checks register_user makes on the stripped name and the password,
   * first refusal first; `None` when the registration goes through.
   */
  function RegistrationCheck(name: string, password: string, existing: set<string>): (r: Option<RegisterError>)
    ensures r.None? <==>
              MinNameLength <= |name| <= MaxNameLength && !Taken(name, existing) && |password| >= MinPasswordLength
    ensures r == Some(EmptyName) <==> name == []
    ensures r == Some(NameTooShort) <==> 0 < |name| < MinNameLength
    ensures r == Some(NameTooLong) <==> |name| > MaxNameLength
    ensures r == Some(NameTaken) <==> MinNameLength <= |name| <= MaxNameLength && Taken(name, existing)
    ensures r == Some(PasswordTooShort) <==>
              MinNameLength <= |name| <= MaxNameLength && !Taken(name, existing) && |password| < MinPasswordLength
  {
    if name == [] then Some(EmptyName)
    else if |name| < MinNameLength then Some(NameTooShort)
    else if |name| > MaxNameLength then Some(NameTooLong)
    else if Taken(name, existing) then Some(NameTaken)
    else if |password| < MinPasswordLength then Some(PasswordTooShort)
    else None
  }

  /**
   * is_username_available: no registered name equals this one up to letter
   * case. On a name of acceptable length this is exactly the registration's
   * duplicate rule, whatever the password, and a name reported as not
   * available is never accepted; unlike register_user it does not strip
   * the name first.
   */
  function Available(name: string, existing: set<string>): (r: bool)
    ensures MinNameLength <= |name| <= MaxNameLength ==>
              forall password :: r <==> RegistrationCheck(name, password, existing) != Some(NameTaken)
    ensures !r ==> forall password :: RegistrationCheck(name, password, existing).Some?
  {
    !Taken(name, existing)
  }

  /** Once a name is registered, every spelling of it in another letter case is taken. */
  lemma CaseVariantTaken(name: string, variant: string, existing: set<string>)
    requires Lower(variant) == Lower(name)
    ensures Taken(variant, existing + {name})
  {
    assert name in existing + {name};
  }

  /** An accepted name is new, and adding it keeps the names distinct up to letter case. */
  lemma AcceptedKeepsCaseDistinct(name: string, password: string, existing: set<string>)
    requires CaseDistinct(existing) && RegistrationCheck(name, password, existing).None?
    ensures name !in existing && CaseDistinct(existing + {name})
  {
    assert forall w :: w in existing ==> Lower(w) != Lower(name);
  }

  /** A name of exactly twenty characters is accepted, although the refusal text says "less than 20". */
  lemma TwentyCharacterNameAccepted()
    ensures RegistrationCheck("abcdefghijabcdefghij", "pass", {}).None?
  {
  }

  /**
   * is_username_available does not strip: " bob" looks available while
   * "bob" is registered, although registering " bob" is refused as taken.
   */
  lemma AvailabilityDoesNotStrip()
    ensures Available(" bob", {"bob"})
    ensures RegistrationCheck(Strip(" bob"), "pass", {"bob"}) == Some(NameTaken)
  {
    forall u | u in {"bob"}
      ensures Lower(u) != Lower(" bob")
    {
      assert |Lower(u)| == 3;
    }
    LeadingSpaceStripped();
    assert "bob" in {"bob"};
  }

  lemma LeadingSpaceStripped()
    ensures Strip(" bob") == "bob"
  {
    assert " bob"[1..] == "bob";
    assert StripLeft("bob") == "bob";
  }

  /** Taking the online names out of all names leaves exactly the rest. */
  lemma OfflineCount(all: set<string>, online: set<string>, offline: set<string>)
    requires online <= all && offline == all - online
    ensures |offline| == |all| - |online| && |online| <= |all|
  {
    assert all == offline + online && offline * online == {};
  }

  // ------------------------------------------------------------ failed logins

  /**
   * A `defaultdict(int)` of per-name counters: the keys in insertion order,
   * as the dict iterates them, and the value of each.
   */
  datatype Counters = Counters(order: seq<string>, counts: map<string, nat>)

  predicate WellFormed(c: Counters) {
    Distinct(c.order) && c.counts.Keys == set k | k in c.order
  }

  function EmptyCounters(): (r: Counters)
    ensures WellFormed(r) && Total(r) == 0
  {
    Counters([], map[])
  }

  /** `d[k]`: a missing key reads as 0. */
  function Get(c: Counters, k: string): nat {
    if k in c.counts then c.counts[k] else 0
  }

  function SumOver(keys: seq<string>, counts: map<string, nat>): nat {
    if keys == [] then 0
    else (if keys[0] in counts then counts[keys[0]] else 0) + SumOver(keys[1..], counts)
  }

  /** `sum(d.values())` */
  function Total(c: Counters): nat {
    SumOver(c.order, c.counts)
  }

  /** `d[k] = v`: a new key goes to the end of the order. */
  function Put(c: Counters, k: string, v: nat): (r: Counters)
    requires WellFormed(c)
    ensures WellFormed(r) && Get(r, k) == v
    ensures forall j :: j != k ==> Get(r, j) == Get(c, j)
  {
    if k in c.counts then Counters(c.order, c.counts[k := v])
    else
      DistinctSnoc(c.order, k);
      Counters(c.order + [k], c.counts[k := v])
  }

  /** `d[k] += 1` */
  function Bump(c: Counters, k: string): (r: Counters)
    requires WellFormed(c)
    ensures WellFormed(r) && Get(r, k) == Get(c, k) + 1
    ensures forall j :: j != k ==> Get(r, j) == Get(c, j)
  {
    Put(c, k, Get(c, k) + 1)
  }

  lemma {:induction false} SumOverOthers(keys: seq<string>, counts: map<string, nat>, k: string, v: nat)
    requires k !in keys
    ensures SumOver(keys, counts[k := v]) == SumOver(keys, counts)
    decreases |keys|
  {
    if keys != [] {
      SumOverOthers(keys[1..], counts, k, v);
    }
  }

  lemma {:induction false} SumOverUpdate(keys: seq<string>, counts: map<string, nat>, k: string, v: nat)
    requires Distinct(keys) && k in keys && k in counts
    ensures SumOver(keys, counts[k := v]) + counts[k] == SumOver(keys, counts) + v
    decreases |keys|
  {
    if keys[0] == k {
      assert k !in keys[1..] by {
        forall j | 0 <= j < |keys[1..]|
          ensures keys[1..][j] != k
        {
          assert keys[1..][j] == keys[j + 1];
        }
      }
      SumOverOthers(keys[1..], counts, k, v);
    } else {
      assert Distinct(keys[1..]) by {
        forall i, j | 0 <= i < j < |keys[1..]|
          ensures keys[1..][i] != keys[1..][j]
        {
          assert keys[1..][i] == keys[i + 1] && keys[1..][j] == keys[j + 1];
        }
      }
      assert k in keys[1..] by {
        var j :| 0 <= j < |keys| && keys[j] == k;
        assert keys[1..][j - 1] == k;
      }
      SumOverUpdate(keys[1..], counts, k, v);
    }
  }

  lemma {:induction false} SumOverSnoc(keys: seq<string>, counts: map<string, nat>, k: string)
    ensures SumOver(keys + [k], counts) == SumOver(keys, counts) + (if k in counts then counts[k] else 0)
    decreases |keys|
  {
    if keys == [] {
      assert [k][1..] == [];
    } else {
      assert (keys + [k])[1..] == keys[1..] + [k];
      SumOverSnoc(keys[1..], counts, k);
    }
  }

  /** Setting one counter changes the total by exactly the difference. */
  lemma PutTotal(c: Counters, k: string, v: nat)
    requires WellFormed(c)
    ensures Total(Put(c, k, v)) + Get(c, k) == Total(c) + v
  {
    if k in c.counts {
      SumOverUpdate(c.order, c.counts, k, v);
    } else {
      SumOverOthers(c.order, c.counts, k, v);
      SumOverSnoc(c.order, c.counts[k := v], k);
    }
  }

  /** Each failed login adds one to `total_failed_logins`. */
  lemma BumpTotal(c: Counters, k: string)
    requires WellFormed(c)
    ensures Total(Bump(c, k)) == Total(c) + 1
  {
    PutTotal(c, k, Get(c, k) + 1);
  }

  /** A successful login takes that name's failures out of the total. */
  lemma ResetTotal(c: Counters, k: string)
    requires WellFormed(c)
    ensures Total(Put(c, k, 0)) == Total(c) - Get(c, k)
    ensures Get(c, k) <= Total(c)
  {
    PutTotal(c, k, 0);
  }
}
