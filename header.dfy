/**
 * The page header (`Header`): the search box and where submitting it goes,
 * the logo link, and the account slot.
 */
module Header {
  import opened Js
  import opened Backend

  /**
   * Where submitting the search box goes: nowhere when the trimmed text is
   * empty, otherwise `/search?q=` and the encoded trimmed text. `encode` is
   * `encodeURIComponent`, left uninterpreted.
   */
  function SubmitTarget(searchQuery: string, encode: string -> string): (target: Option<string>)
    ensures target.None? <==> Trim(searchQuery) == ""
    ensures target.Some? ==> target.value == "/search?q=" + encode(Trim(searchQuery))
  {
    if Trim(searchQuery) != "" then Some("/search?q=" + encode(Trim(searchQuery))) else None
  }

  /** Spaces around the query never matter: the target is that of the trimmed text. */
  lemma SubmitIgnoresSurroundingSpace(searchQuery: string, encode: string -> string)
    ensures SubmitTarget(searchQuery, encode) == SubmitTarget(Trim(searchQuery), encode)
  {
    TrimIdempotent(searchQuery);
  }

  /** A query made only of white space goes nowhere. */
  lemma BlankQueryGoesNowhere(searchQuery: string, encode: string -> string)
    requires forall i :: 0 <= i < |searchQuery| ==> IsWhitespace(searchQuery[i])
    ensures SubmitTarget(searchQuery, encode).None?
  {
    TrimShape(searchQuery);
  }

  /** What the header shows for the account: the user menu, or a login button to '/auth'. */
  datatype AccountSlot = UserMenuSlot | LoginButton(path: string)

  function AccountSlotFor(user: Option<User>): (slot: AccountSlot)
    ensures slot.UserMenuSlot? <==> user.Some?
    ensures slot.LoginButton? ==> slot.path == "/auth"
  {
    if user.Some? then UserMenuSlot else LoginButton("/auth")
  }

  class HeaderState {
    var searchQuery: string
    /** The paths navigated to. */
    var navigations: seq<string>

    constructor ()
      ensures searchQuery == "" && navigations == []
    {
      searchQuery, navigations := "", [];
    }

    /** Typing into the search box. */
    method Input(text: string)
      modifies this`searchQuery
      ensures searchQuery == text
    {
      searchQuery := text;
    }

    /** The logo. */
    method ClickLogo()
      modifies this`navigations
      ensures navigations == old(navigations) + ["/"]
    {
      navigations := navigations + ["/"];
    }

    /** Submitting the search form: navigates to the target, if there is one. */
    method Submit(encode: string -> string)
      modifies this`navigations
      ensures Trim(searchQuery) == "" ==> navigations == old(navigations)
      ensures Trim(searchQuery) != "" ==>
        navigations == old(navigations) + ["/search?q=" + encode(Trim(searchQuery))]
    {
      var trimmed := Trim(searchQuery);
      if trimmed != "" {
        navigations := navigations + ["/search?q=" + encode(trimmed)];
      }
    }
  }
}
