/**
 * ValidateApplicationNotManagement: the uninstall-application validator of
 * the REST service. It looks the requested application up in the admin
 * view and rejects the request when nothing is found or when the
 * application found is the management application.
 */
module ApplicationValidation {
  import opened Wrappers

  /** A discovered application, known by its name. */
  datatype Application = Application(name: string)

  /** The uninstall request as the validator reads it. */
  datatype ValidationContext = ValidationContext(applicationName: string)

  /** The RestErrorExceptions validate throws. */
  datatype Rejection =
      /** FAILED_TO_LOCATE_APP, with the requested name as its argument. */
    | FailedToLocateApp(appName: string)
      /** CANNOT_UNINSTALL_MANAGEMENT_APP, without arguments. */
    | CannotUninstallManagementApp

  /**
   * validate. `discovered` is what the admin's bounded wait for the
   * requested name yields; `managementApp` the management application's
   * name; None is normal completion. It rejects exactly the two cases: an
   * application not found, with the requested name, and the management
   * application; any other application found passes. Being a function, it
   * changes neither the context nor the admin.
   */
  function Validate(context: ValidationContext, discovered: Option<Application>, managementApp: string)
    : (r: Option<Rejection>)
    ensures r.None? <==> discovered.Some? && discovered.value.name != managementApp
    ensures r == Some(FailedToLocateApp(context.applicationName)) <==> discovered.None?
    ensures r == Some(CannotUninstallManagementApp) <==>
              discovered.Some? && discovered.value.name == managementApp
  {
    if discovered.None? then Some(FailedToLocateApp(context.applicationName))
    else if discovered.value.name == managementApp then Some(CannotUninstallManagementApp)
    else None
  }

  /**
   * The not-found check comes first: without a discovered application the
   * outcome does not depend on the management name at all, even when the
   * requested name is the management application's.
   */
  lemma NotFoundCheckedFirst(context: ValidationContext, managementApp: string, otherManagementApp: string)
    ensures Validate(context, None, managementApp) == Validate(context, None, otherManagementApp)
    ensures Validate(ValidationContext(managementApp), None, managementApp) == Some(FailedToLocateApp(managementApp))
  {
  }

  /**
   * The name is compared exactly: a discovered application whose name
   * differs from the management name in any character, letter case
   * included, passes.
   */
  lemma NameComparedExactly(context: ValidationContext, managementApp: string, k: nat, c: char)
    requires k < |managementApp| && c != managementApp[k]
    ensures Validate(context, Some(Application(managementApp[k := c])), managementApp).None?
  {
    assert managementApp[k := c][k] != managementApp[k];
  }
}
