/** The panel's client-side routes that the modelled handlers navigate to. */
module Routes {
  /** Where a completed sign-in and a completed save both lead. */
  const DashboardPath := "/dashboard"
}
