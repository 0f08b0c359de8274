/**
 * The fallback chains the account and profile pages use to show or
 * pre-fill a profile field: `a || b || ... || fallback`, where each
 * candidate is a profile column or a property of the signed-in user.
 */
module ProfileFields {
  import opened Js
  import opened Backend

  /** What a read-only field shows when every source is empty. */
  const Placeholder := "Belum diisi"

  /** `c0 || c1 || ... || fallback`: the first truthy candidate, else the fallback. */
  function Chain(candidates: seq<Option<string>>, fallback: string): string {
    if candidates == [] then fallback
    else if Truthy(candidates[0]) then candidates[0].value
    else Chain(candidates[1..], fallback)
  }

  /** Every candidate is `null`, `undefined` or ''. */
  predicate AllEmpty(candidates: seq<Option<string>>) {
    forall i :: 0 <= i < |candidates| ==> !Truthy(candidates[i])
  }

  /**
   * A chain yields its fallback when every candidate is empty; otherwise it
   * yields a non-empty text that does not depend on the fallback.
   */
  lemma {:induction false} ChainCases(candidates: seq<Option<string>>, fallback: string, other: string)
    ensures AllEmpty(candidates) ==> Chain(candidates, fallback) == fallback
    ensures !AllEmpty(candidates) ==>
      Chain(candidates, fallback) == Chain(candidates, other) && Chain(candidates, fallback) != ""
  {
    if candidates != [] && !Truthy(candidates[0]) {
      ChainCases(candidates[1..], fallback, other);
      assert AllEmpty(candidates) <==> AllEmpty(candidates[1..]) by {
        assert forall i :: 1 <= i < |candidates| ==> candidates[i] == candidates[1..][i - 1];
      }
    }
  }

  /**
   * A read-only field shows 'Belum diisi' exactly when every source is
   * empty, or when the first non-empty source holds that very text.
   */
  lemma ShowsPlaceholder(candidates: seq<Option<string>>)
    ensures Chain(candidates, Placeholder) == Placeholder <==>
      AllEmpty(candidates) || Chain(candidates, "") == Placeholder
  {
    ChainCases(candidates, Placeholder, "");
  }

  /**
   * Opening the form pre-fills a field with what the read-only view
   * showed, except that the placeholder becomes ''.
   */
  lemma FillMatchesDisplay(candidates: seq<Option<string>>)
    ensures AllEmpty(candidates) ==> Chain(candidates, "") == "" && Chain(candidates, Placeholder) == Placeholder
    ensures !AllEmpty(candidates) ==> Chain(candidates, "") == Chain(candidates, Placeholder)
  {
    ChainCases(candidates, "", Placeholder);
    ChainCases(candidates, Placeholder, "");
  }

  /** `profile?.full_name || user?.user_metadata?.full_name` */
  function FullNameSources(profile: Option<ProfileRow>, user: Option<User>): seq<Option<string>> {
    [if profile.Some? then profile.value.fullName else None,
     if user.Some? then user.value.metadataFullName else None]
  }

  /** `profile?.email || user?.email` */
  function EmailSources(profile: Option<ProfileRow>, user: Option<User>): seq<Option<string>> {
    [if profile.Some? then profile.value.email else None,
     if user.Some? then user.value.email else None]
  }

  /** `profile?.phone` */
  function PhoneSources(profile: Option<ProfileRow>): seq<Option<string>> {
    [if profile.Some? then profile.value.phone else None]
  }

  /** `profile?.address` */
  function AddressSources(profile: Option<ProfileRow>): seq<Option<string>> {
    [if profile.Some? then profile.value.address else None]
  }

  /** `!user?.id`: there is no signed-in user, or its id is empty. */
  predicate NoUserId(user: Option<User>) {
    user.None? || user.value.id == ""
  }

  /** The `profiles` row a successful upsert leaves under `id`. */
  function Upserted(profiles: map<UserId, ProfileRow>, id: UserId, written: ProfileRow, keepAddress: bool)
    : (r: map<UserId, ProfileRow>)
    ensures r.Keys == profiles.Keys + {id}
    ensures forall other :: other in profiles && other != id ==> r[other] == profiles[other]
    ensures keepAddress && id in profiles ==> r[id] == written.(address := profiles[id].address)
    ensures !(keepAddress && id in profiles) ==> r[id] == written
  {
    if keepAddress && id in profiles
    then profiles[id := written.(address := profiles[id].address)]
    else profiles[id := written]
  }
}
