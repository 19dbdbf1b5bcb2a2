/** Locations inside the application, as sequences of path segments
    ("/dashboard/user" is ["dashboard", "user"]). */
module Navigation {

  type Path = seq<string>

  const Login: Path := ["login"]
  const ForgotPassword: Path := ["forgot-password"]
  const ChangePassword: Path := ["changePassword"]
  const Dashboard: Path := ["dashboard"]
  const DashboardUser: Path := ["dashboard", "user"]
  const Unauthorized: Path := ["unauthorized"]
  const Users: Path := ["users"]
  const Categories: Path := ["categories"]
  const Storages: Path := ["storages"]
  const Articles: Path := ["articles"]
  const ArticlesUser: Path := ["articles", "user"]
}
