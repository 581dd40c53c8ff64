/** The NextAuth session as the premium pages read it. */
module Sessions {
  import opened Wrappers

  /** `useSession().status`. */
  datatype Status = Loading | Authenticated | Unauthenticated

  datatype User = User(subscriptionTier: Option<string>)

  /** `useSession().data`: the user may be missing. */
  datatype Session = Session(user: Option<User>)

  const PremiumTier := "premium"

  /** `session?.user?.subscriptionTier === "premium"`. */
  predicate IsPremium(session: Option<Session>) {
    session.Some? && session.value.user.Some? && session.value.user.value.subscriptionTier == Some(PremiumTier)
  }
}
