/**
 * The admin check of the front end: the signed-in user id against the
 * comma-separated list in `CLERK_ADMIN_IDS`, compared without trimming.
 * The user id and the variable are inputs.
 */
module FrontendAdmin {
  import opened Wrappers
  import opened Text

  /** `CLERK_ADMIN_IDS?.split(",") || []`. */
  function AdminIds(env: Option<string>): seq<string> {
    if env.Some? then Split(env.value, ',') else []
  }

  /** `getIsAdmin`. */
  function GetIsAdmin(userId: Option<string>, env: Option<string>): (b: bool)
    ensures !Present(userId) ==> !b
    ensures env.None? ==> !b
    ensures b <==> Present(userId) && env.Some? && userId.value in Split(env.value, ',')
  {
    Present(userId) && userId.value in AdminIds(env)
  }

  /** The entries are the pieces between the commas, and joining them
      back gives the variable. */
  lemma EntriesRejoin(env: string)
    ensures Join(AdminIds(Some(env)), ',') == env
  {
    JoinSplit(env, ',');
  }

  /** A variable with one entry admits exactly that id, spaces included:
      " u1" does not admit "u1". */
  lemma NoTrimming(id: string, entry: string)
    requires id != "" && ',' !in entry
    ensures GetIsAdmin(Some(id), Some(entry)) <==> id == entry
  {
    SplitWithoutSeparator(entry, ',');
  }

  lemma PaddedEntryDoesNotMatch()
    ensures !GetIsAdmin(Some("u1"), Some(" u1"))
  {
    NoTrimming("u1", " u1");
  }
}
