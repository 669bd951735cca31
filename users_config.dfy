/** The constants of the users feature (src/features/users/config.ts). */
module UsersConfig {
  import FadeInUp

  /** Users per page: the `limit` of every list request and the size of a full page. */
  const UsersPerPage: nat := 12

  /** The stagger speed of the users list. */
  const DefaultStaggerSpeed := FadeInUp.Medium
}
