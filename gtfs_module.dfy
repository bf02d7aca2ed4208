// GtfsModule: the agency-id deconfliction performed while a GTFS feed is loaded, the
// per-entity-type counter, and the early returns of the route text-colour rule.

module Gtfs {
  import opened Wrappers

  /** The decimal digit for `d`. */
  function Digit(d: nat): char
    requires d < 10
  {
    (48 + d) as char
  }

  /** The decimal representation of `n`, as `String.valueOf` writes it. */
  function NatToString(n: nat): (r: string)
    ensures |r| >= 1 && (n >= 10 ==> |r| >= 2)
    ensures r[|r| - 1] == Digit(n % 10)
  {
    if n < 10 then [Digit(n)] else NatToString(n / 10) + [Digit(n % 10)]
  }

  /** Different numbers are written differently. */
  lemma {:induction false} NatToStringInjective(a: nat, b: nat)
    requires NatToString(a) == NatToString(b)
    ensures a == b
  {
    var s := NatToString(a);
    assert Digit(a % 10) == Digit(b % 10);
    assert a % 10 == b % 10;
    if a >= 10 && b >= 10 {
      assert NatToString(a / 10) == s[..|s| - 1] == NatToString(b / 10);
      NatToStringInjective(a / 10, b / 10);
    }
  }

  /** The id generated from counter value `n`: "F" followed by `n`. */
  function GeneratedId(n: nat): string
  {
    "F" + NatToString(n)
  }

  /** A common prefix cancels. */
  lemma PrefixCancels(p: string, a: string, b: string)
    requires p + a == p + b
    ensures a == b
  {
    assert a == (p + a)[|p|..];
    assert b == (p + b)[|p|..];
  }

  lemma GeneratedIdInjective(p: string, a: nat, b: nat)
    requires p + GeneratedId(a) == p + GeneratedId(b)
    ensures a == b
  {
    PrefixCancels(p, GeneratedId(a), GeneratedId(b));
    PrefixCancels("F", NatToString(a), NatToString(b));
    NatToStringInjective(a, b);
  }

  /** The members of `seen` that the generator could still produce from counter `n` on. */
  ghost function Pending(seen: set<string>, probe: string, n: nat): set<string>
  {
    set s | s in seen && exists m: nat :: m >= n && s == probe + GeneratedId(m)
  }

  /** Each probe that hits `seen` leaves one fewer id for the generator to run into. */
  lemma PendingShrinks(seen: set<string>, probe: string, n: nat)
    requires probe + GeneratedId(n) in seen
    ensures Pending(seen, probe, n + 1) < Pending(seen, probe, n)
  {
    var hit := probe + GeneratedId(n);
    assert hit in Pending(seen, probe, n);
    if hit in Pending(seen, probe, n + 1) {
      var m: nat :| m >= n + 1 && hit == probe + GeneratedId(m);
      GeneratedIdInjective(probe, n, m);
    }
  }

  /**
   * The inner `while` loop: the first counter value from `n` on whose generated id, after
   * `probe`, is not in `seen`.
   */
  function FirstFree(seen: set<string>, probe: string, n: nat): (r: nat)
    ensures r >= n && probe + GeneratedId(r) !in seen
    ensures forall k :: n <= k < r ==> probe + GeneratedId(k) in seen
    decreases Pending(seen, probe, n)
  {
    if probe + GeneratedId(n) in seen then
      PendingShrinks(seen, probe, n);
      FirstFree(seen, probe, n + 1)
    else n
  }

  /** State threaded through the agencies of one feed: final ids, seen set, next counter. */
  datatype AgencyState = AgencyState(ids: seq<string>, seen: set<string>, next: nat)

  /**
   * One agency: a missing id, or one whose feed-prefixed form was already seen, is replaced
   * by the first free generated id (looked up with `probe` in front); the final id is
   * recorded, feed-prefixed, in the seen set.
   */
  function AgencyStep(feedId: string, probe: string, st: AgencyState, agencyId: Option<string>): (r: AgencyState)
    ensures |r.ids| == |st.ids| + 1 && r.ids[..|st.ids|] == st.ids
    ensures r.seen == st.seen + {feedId + r.ids[|st.ids|]}
    ensures (agencyId.None? || feedId + agencyId.value in st.seen) <==> r.next > st.next
    ensures agencyId.Some? && feedId + agencyId.value !in st.seen ==>
              r.ids[|st.ids|] == agencyId.value && r.next == st.next
    ensures r.next > st.next ==>
              r.ids[|st.ids|] == GeneratedId(r.next - 1) && probe + GeneratedId(r.next - 1) !in st.seen
  {
    if agencyId.None? || feedId + agencyId.value in st.seen then
      var m := FirstFree(st.seen, probe, st.next);
      AgencyState(st.ids + [GeneratedId(m)], st.seen + {feedId + GeneratedId(m)}, m + 1)
    else
      AgencyState(st.ids + [agencyId.value], st.seen + {feedId + agencyId.value}, st.next)
  }

  /** The agencies of one feed, in reading order. */
  function AssignIds(feedId: string, probe: string, st: AgencyState, agencies: seq<Option<string>>): (r: AgencyState)
    ensures |r.ids| == |st.ids| + |agencies| && r.ids[..|st.ids|] == st.ids
    ensures r.next >= st.next
  {
    if |agencies| == 0 then st
    else
      var before := AssignIds(feedId, probe, st, agencies[..|agencies| - 1]);
      var r := AgencyStep(feedId, probe, before, agencies[|agencies| - 1]);
      assert r.ids[..|st.ids|] == before.ids[..|before.ids|][..|st.ids|];
      r
  }

  /** The loop as written probes the seen set with the generated id alone, without the feed id. */
  function AssignIdsAsWritten(feedId: string, st: AgencyState, agencies: seq<Option<string>>): AgencyState
  {
    AssignIds(feedId, "", st, agencies)
  }

  /**
   * As written, an agency that already carries the id "F1" is followed by one without an id,
   * and the generator hands out "F1" a second time.
   */
  lemma AsWrittenReusesAgencyId()
    ensures AssignIdsAsWritten("X", AgencyState([], {}, 1), [Some("F1"), None]).ids == ["F1", "F1"]
    ensures AssignIds("X", "X", AgencyState([], {}, 1), [Some("F1"), None]).ids == ["F1", "F2"]
  {
    var agencies: seq<Option<string>> := [Some("F1"), None];
    var st0 := AgencyState([], {}, 1);
    assert agencies[..1] == [Some("F1")] && agencies[..1][..0] == [];
    assert NatToString(1) == "1" && NatToString(2) == "2";
    assert GeneratedId(1) == "F1" && GeneratedId(2) == "F2";
    var first := AgencyState(["F1"], {"XF1"}, 1);
    assert "X" + "F1" == "XF1" && "X" + GeneratedId(1) == "XF1" && "X" + GeneratedId(2) == "XF2";
    assert "XF2"[2] != "XF1"[2];
    assert AssignIds("X", "", st0, agencies[..1][..0]) == st0;
    assert AgencyStep("X", "", st0, Some("F1")) == first;
    assert AssignIds("X", "", st0, agencies[..1]) == first;
    assert AssignIds("X", "X", st0, agencies[..1][..0]) == st0;
    assert AgencyStep("X", "X", st0, Some("F1")) == first;
    assert AssignIds("X", "X", st0, agencies[..1]) == first;
    // The probe without the feed id misses "XF1" and takes counter value 1 again.
    assert "" + GeneratedId(1) !in first.seen;
    assert FirstFree(first.seen, "", 1) == 1;
    assert AgencyStep("X", "", first, None).ids == ["F1", "F1"];
    // The feed-prefixed probe finds "XF1" and moves on to 2.
    assert "X" + GeneratedId(1) in first.seen && "X" + GeneratedId(2) !in first.seen;
    assert FirstFree(first.seen, "X", 2) == 2;
    assert FirstFree(first.seen, "X", 1) == 2;
    assert AgencyStep("X", "X", first, None).ids == ["F1", "F2"];
  }

  /**
   * The ids of `s` are pairwise distinct, none of them was in `base` in feed-prefixed form,
   * and the seen set is `base` plus exactly those feed-prefixed ids.
   */
  ghost predicate DistinctFresh(feedId: string, base: set<string>, s: AgencyState)
  {
    (forall i, j :: 0 <= i < j < |s.ids| ==> s.ids[i] != s.ids[j])
    && (forall i :: 0 <= i < |s.ids| ==> feedId + s.ids[i] !in base)
    && s.seen == base + set i | 0 <= i < |s.ids| :: feedId + s.ids[i]
  }

  /** One agency with the feed-prefixed probe keeps the ids distinct and fresh. */
  lemma StepKeepsDistinct(feedId: string, base: set<string>, before: AgencyState, agencyId: Option<string>)
    requires DistinctFresh(feedId, base, before)
    ensures DistinctFresh(feedId, base, AgencyStep(feedId, feedId, before, agencyId))
  {
    var r := AgencyStep(feedId, feedId, before, agencyId);
    var n := |before.ids|;
    assert r.ids == before.ids + [r.ids[n]];
    assert feedId + r.ids[n] !in before.seen;
    forall i | 0 <= i < n
      ensures r.ids[i] != r.ids[n]
    {
      assert feedId + before.ids[i] in before.seen;
    }
    assert (set i | 0 <= i < |r.ids| :: feedId + r.ids[i])
           == (set i | 0 <= i < n :: feedId + before.ids[i]) + {feedId + r.ids[n]};
  }

  /**
   * With the feed id in front of the probe, the ids of one feed are pairwise distinct, none
   * of them was seen before, and exactly they are added to the seen set.
   */
  lemma {:induction false} AssignIdsDistinct(feedId: string, st: AgencyState, agencies: seq<Option<string>>)
    requires st.ids == []
    ensures DistinctFresh(feedId, st.seen, AssignIds(feedId, feedId, st, agencies))
  {
    if |agencies| == 0 {
      assert (set i | 0 <= i < |st.ids| :: feedId + st.ids[i]) == {};
    } else {
      var init := agencies[..|agencies| - 1];
      AssignIdsDistinct(feedId, st, init);
      StepKeepsDistinct(feedId, st.seen, AssignIds(feedId, feedId, st, init), agencies[|agencies| - 1]);
    }
  }


  class GtfsModule {
    var agencyIdsSeen: set<string>
    var nextAgencyId: nat

    constructor ()
      ensures agencyIdsSeen == {} && nextAgencyId == 1
    {
      agencyIdsSeen := {};
      nextAgencyId := 1;
    }

    /**
     * The agency loop of `loadBundle` for one feed, with the generated ids looked up
     * feed-prefixed: returns the final id of each agency in order.
     */
    method AssignAgencyIds(feedId: string, agencies: seq<Option<string>>) returns (ids: seq<string>)
      modifies this`agencyIdsSeen, this`nextAgencyId
      ensures AgencyState(ids, agencyIdsSeen, nextAgencyId)
              == AssignIds(feedId, feedId, AgencyState([], old(agencyIdsSeen), old(nextAgencyId)), agencies)
      ensures forall i, j :: 0 <= i < j < |ids| ==> ids[i] != ids[j]
      ensures forall i :: 0 <= i < |ids| ==> feedId + ids[i] !in old(agencyIdsSeen)
    {
      ghost var st0 := AgencyState([], agencyIdsSeen, nextAgencyId);
      ids := [];
      var i := 0;
      while i < |agencies|
        invariant 0 <= i <= |agencies|
        invariant AgencyState(ids, agencyIdsSeen, nextAgencyId) == AssignIds(feedId, feedId, st0, agencies[..i])
      {
        assert agencies[..i + 1][..i] == agencies[..i];
        var agencyId := agencies[i];
        ghost var step := AgencyStep(feedId, feedId, AgencyState(ids, agencyIdsSeen, nextAgencyId), agencyId);
        assert AssignIds(feedId, feedId, st0, agencies[..i + 1]) == step;
        var id: string;
        if agencyId.None? || feedId + agencyId.value in agencyIdsSeen {
          id := NextGeneratedId(feedId);
        } else {
          id := agencyId.value;
        }
        agencyIdsSeen := agencyIdsSeen + {feedId + id};
        ids := ids + [id];
        assert AgencyState(ids, agencyIdsSeen, nextAgencyId) == step;
        i := i + 1;
      }
      assert agencies[..i] == agencies;
      AssignIdsDistinct(feedId, st0, agencies);
    }
 
    /** The inner loop: take counter values until the feed-prefixed generated id is unseen. */
    method NextGeneratedId(feedId: string) returns (id: string)
      modifies this`nextAgencyId
      ensures nextAgencyId == FirstFree(agencyIdsSeen, feedId, old(nextAgencyId)) + 1
      ensures id == GeneratedId(nextAgencyId - 1)
    {
      var generated: Option<string> := None;
      ghost var m := FirstFree(agencyIdsSeen, feedId, nextAgencyId);
      ghost var n0 := nextAgencyId;
      assert feedId + GeneratedId(m) !in agencyIdsSeen;
      while generated.None? || feedId + generated.value in agencyIdsSeen
        invariant n0 <= nextAgencyId <= m + 1
        invariant generated.None? ==> nextAgencyId == n0
        invariant generated.Some? ==> n0 < nextAgencyId && generated.value == GeneratedId(nextAgencyId - 1)
        decreases m + 1 - nextAgencyId
      {
        generated := Some(GeneratedId(nextAgencyId));
        nextAgencyId := nextAgencyId + 1;
      }
      assert feedId + GeneratedId(nextAgencyId - 1) !in agencyIdsSeen;
      id := generated.value;
    }
  }

  /** `EntityCounter`: entities read so far, per entity type. */
  class EntityCounter {
    var count: map<string, nat>

    constructor ()
      ensures count == map[]
    {
      count := map[];
    }

    /** `incrementCount`: one more entity of `entityType`; the new count is returned. */
    method IncrementCount(entityType: string) returns (value: nat)
      modifies this
      ensures value == (if entityType in old(count) then old(count)[entityType] else 0) + 1
      ensures count == old(count)[entityType := value]
    {
      value := if entityType in count then count[entityType] else 0;
      value := value + 1;
      count := count[entityType := value];
    }
  }

  datatype Route = Route(color: Option<string>, textColor: Option<string>)

  /**
   * `generateRouteColor`: a route without a colour, or with a text colour already, is left
   * as it is; otherwise its text colour becomes black on a light colour and white on a dark
   * one. The luminance is given, as its computation is not part of this model.
   */
  function GenerateRouteColor(route: Route, luminance: real): (r: Route)
    ensures route.color.None? || route.textColor.Some? ==> r == route
    ensures route.color.Some? && route.textColor.None? ==>
              r.color == route.color && r.textColor.Some?
              && (r.textColor.value == "000000" <==> luminance > 0.5)
              && (r.textColor.value == "FFFFFF" <==> luminance <= 0.5)
  {
    if route.color.None? then route
    else if route.textColor.Some? then route
    else route.(textColor := Some(if luminance > 0.5 then "000000" else "FFFFFF"))
  }

  /** Generating twice changes nothing more, whatever luminance the second call sees. */
  lemma GenerateRouteColorIdempotent(route: Route, l1: real, l2: real)
    ensures GenerateRouteColor(GenerateRouteColor(route, l1), l2) == GenerateRouteColor(route, l1)
  {
  }
}
