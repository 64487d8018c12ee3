# DecalXe back-office front end: dashboard figures, navigation and form logic

DecalXe is the staff front end of a vehicle-decal business. Employees use it to
manage orders, customers, services and design templates. This project models
the logic behind six of its parts and proves properties about it:

- the dashboard statistics service: counts, revenue, the average order value
  and the per-status and per-stage groupings over the orders and customers;
- the sidebar: the role- and permission-filtered navigation menu,
  active-link matching and the expand/collapse state;
- the employee edit page: the staff role whitelist, the one-Manager-per-store
  rule, field updates and form validation with its messages;
- the template library page: search and filters, pagination, selection and
  the category and vehicle-type lookups;
- the service management page: reshaping API services into list rows, the
  icon and colour tables, category buttons, the filter and the counters;
- the decal template edit page: loading, the image checks done before upload,
  the image handlers, validation and the submitted payload.

Page state that the source keeps in React `useState` hooks is modelled as a
class whose fields the handlers update: `EmployeeEditPage`, `SidebarState`,
`TemplateLibraryPage` and `DecalTemplateEditor`. The rules those handlers
apply are functions over values. Every reduce over a collection in the
statistics service is the one loop `GroupAndSum`. That loop is proved against
the closed form `GroupTotals`, and the totals and default buckets are proved
about `GroupTotals`.

Some behaviour is outside the model and is passed in as a parameter instead:

- the outcomes of the four fetches;
- the authentication service's module-permission check;
- the Cloudinary upload result;
- the object URL of a picked file.

Files:

- `options.dfy`: absent values, JavaScript `||` and `??` on optional fields,
  and fetch results.
- `sequences.dfy`: the array methods the code uses (`filter`, `map`, `some`,
  `find`, `findIndex`, `slice`), with their contracts.
- `text.dfy`: `trim`, `toLowerCase`, `includes`, `startsWith` and the regular
  expression class `\s`.
- One file per modelled source file: `dashboard_stats.dfy`, `sidebar.dfy`,
  `employee_edit.dfy`, `template_library.dfy`, `service_management.dfy` and
  `decal_template_edit.dfy`.

## Model

| member | source | states |
|---|---|---|
| Text.Trim | src/pages/employees/EmployeeEditPage.jsx:230 | the result is a slice of the input with only white space cut from each end; it is empty exactly when the input is all white space |
| Text.TrimIdempotent | src/pages/decal-templates/EditDecalTemplatePage.jsx:174 | trimming an already trimmed name changes nothing |
| Text.Lower | src/pages/templates/TemplateLibraryPage.jsx:199-201 | lower-casing keeps the length and maps each character through the ASCII lower-case rule |
| Text.LowerIdempotent | src/pages/templates/TemplateLibraryPage.jsx:199-201 | lower-casing twice is the same as lower-casing once |
| Text.Includes | src/pages/templates/TemplateLibraryPage.jsx:199-201 | true exactly when the needle occurs at some position of the text |
| Text.IncludesEmpty | src/pages/services/ServiceManagementPage.jsx:118-119 | the empty search term occurs in every text |
| DashboardStats.GroupTotals | src/services/dashboardStatsService.js:135-177 | a key is present in the grouping exactly when some element has that key |
| DashboardStats.GroupAndSum | src/services/dashboardStatsService.js:138-142 | the left-to-right `groups[key] = (groups[key] \|\| 0) + weight` loop yields `GroupTotals` |
| DashboardStats.GroupTotalsSnoc | src/services/dashboardStatsService.js:140 | one more element adds its weight to its own key's entry and leaves every other entry alone |
| DashboardStats.GroupTotalsTotal | src/services/dashboardStatsService.js:157-166 | the entries of a grouping add up to the total weight of all elements |
| DashboardStats.TotalPick | src/services/dashboardStatsService.js:138-142 | the sum of a dictionary's values does not depend on which key is taken first |
| DashboardStats.TotalAddTo | src/services/dashboardStatsService.js:140 | adding to one entry adds that amount to the sum of the values |
| DashboardStats.CountIsLength | src/services/dashboardStatsService.js:140 | counting each element once gives the number of elements |
| DashboardStats.CountsSumToLength | src/services/dashboardStatsService.js:135-154 | the counts of a count grouping add up to the number of elements |
| DashboardStats.CountIsOccurrences | src/services/dashboardStatsService.js:135-154 | each count is the number of elements with that key, so it is at least one |
| DashboardStats.DefaultBucket | src/services/dashboardStatsService.js:139 | with `key = field \|\| d`, bucket `d` appears once an element lacks the field, and it counts the elements that lack the field or carry `d` |
| DashboardStats.AverageOrderValue | src/services/dashboardStatsService.js:124-132 | zero for absent or empty orders; otherwise the average times the order count is the sum of all amounts |
| DashboardStats.RevenueOfNextOrder | src/services/dashboardStatsService.js:113-121 | appending an order adds its amount to the revenue when it is in the delivery stage, and nothing otherwise |
| DashboardStats.RevenueIsTerminalStageEntry | src/services/dashboardStatsService.js:113-121 | total revenue is the "AcceptanceAndDelivery" entry of the revenue by stage, or 0 when that stage has no orders |
| DashboardStats.StageRevenuesAddUpToAverageTotal | src/services/dashboardStatsService.js:124-132 | the stage revenues add up to the total the average divides, so the average is their sum over the order count |
| DashboardStats.GroupOrdersByStatus | src/services/dashboardStatsService.js:135-143 | orders counted per `orderStatus \|\| 'Unknown'`; an absent collection gives `{}` |
| DashboardStats.GroupOrdersByStage | src/services/dashboardStatsService.js:146-154 | orders counted per `currentStage \|\| 'Unknown'` |
| DashboardStats.RevenueByStage | src/services/dashboardStatsService.js:157-166 | amounts (`totalAmount \|\| 0`) summed per stage |
| DashboardStats.GroupCustomersByStatus | src/services/dashboardStatsService.js:169-177 | customers counted per `status \|\| 'Active'` |
| DashboardStats.AbsentCollectionDefaults | src/services/dashboardStatsService.js:113-177 | an absent or non-array collection gives 0, 0 and empty groupings everywhere |
| DashboardStats.OrderCountsSumToTotal | src/services/dashboardStatsService.js:135-154 | the status counts and the stage counts each add up to the number of orders |
| DashboardStats.CustomerCountsSumToTotal | src/services/dashboardStatsService.js:169-177 | the customer status counts add up to the number of customers |
| DashboardStats.StatusCountsPositive | src/services/dashboardStatsService.js:135-143 | every status listed has a count of at least one |
| DashboardStats.MissingStatusIsUnknown | src/services/dashboardStatsService.js:139 | orders without a status are counted under "Unknown" |
| DashboardStats.MissingStageIsUnknown | src/services/dashboardStatsService.js:150 | orders without a stage are counted under "Unknown" |
| DashboardStats.MissingCustomerStatusIsActive | src/services/dashboardStatsService.js:173 | customers without a status are counted under "Active" |
| DashboardStats.GetDashboardStats | src/services/dashboardStatsService.js:8-58 | fails with a fetch error exactly when one of the four fetches fails; otherwise every figure of the snapshot is its specified function of the fetched collections |
| DashboardStats.GetOrderStats | src/services/dashboardStatsService.js:61-76 | the fetch error is passed on; otherwise count, revenue, average and both groupings |
| DashboardStats.GetRevenueStats | src/services/dashboardStatsService.js:79-92 | the fetch error is passed on; otherwise revenue, average and revenue by stage |
| DashboardStats.GetCustomerStats | src/services/dashboardStatsService.js:95-107 | the fetch error is passed on; otherwise the customer count and the status grouping |
| DashboardStats.ExampleRevenue | src/services/dashboardStatsService.js:113-121 | of a delivered order of 1000 and one of 500 still in design, only the 1000 is revenue |
| DashboardStats.ExampleAverage | src/services/dashboardStatsService.js:124-132 | the average of those two orders is 750, taken over all orders |
| DashboardStats.ExampleStageCounts | src/services/dashboardStatsService.js:146-154 | those two orders give one order in each of the two stages |
| Sidebar.UserRole | src/hooks/useAuth.js:152 | the role is `role`, otherwise `accountRoleName`, otherwise none; it is never empty, and no user means no role |
| Sidebar.IsActive | src/components/layout/Sidebar.jsx:193-195 | a link is active exactly when the path is the link or continues it with a `/` |
| Sidebar.ActiveHrefIsPrefix | src/components/layout/Sidebar.jsx:193-195 | an active link is a prefix of the path |
| Sidebar.SegmentBoundary | src/components/layout/Sidebar.jsx:193-195 | "/orders" is not active on "/ordersX" but is active on "/orders/create" |
| Sidebar.ActiveTransitive | src/components/layout/Sidebar.jsx:193-195 | a path below an active link is below every link that link is below |
| Sidebar.IsParentActive | src/components/layout/Sidebar.jsx:197-199 | a group is active exactly when some child link is; never without children |
| Sidebar.ItemActive | src/components/layout/Sidebar.jsx:294 | an entry is highlighted by its own link when that is non-empty, otherwise by its children |
| Sidebar.OrderGroupActiveOnCreate | src/components/layout/Sidebar.jsx:39-48 | on "/orders/create" the order group is active through two children at once |
| Sidebar.HasModuleAccess | src/components/layout/Sidebar.jsx:202-232 | an unmapped name is allowed; a mapped one needs "view" permission on its module |
| Sidebar.EveryMenuItemMapped | src/components/layout/Sidebar.jsx:32-221 | every menu entry has a module, so the permission check always decides |
| Sidebar.FilteredNavigation | src/components/layout/Sidebar.jsx:234-242 | the menu keeps, in order, exactly the entries whose roles include the user's role and whose module may be viewed |
| Sidebar.NoRoleHidesAll | src/components/layout/Sidebar.jsx:234-242 | without a role no entry passes the filter |
| Sidebar.CustomerMenu | src/components/layout/Sidebar.jsx:32-242 | a customer sees the overview entry alone, and only with "dashboard" view permission |
| Sidebar.NoUserNoMenu | src/components/layout/Sidebar.jsx:234-242 | without a signed-in user the menu is empty |
| Sidebar.Toggled | src/components/layout/Sidebar.jsx:186-191 | toggling flips how the named entry reads and keeps every other entry |
| Sidebar.ToggleTwice | src/components/layout/Sidebar.jsx:186-191 | toggling the same entry twice restores how every entry reads |
| Sidebar.SidebarState.constructor | src/components/layout/Sidebar.jsx:182 | nothing is expanded at first |
| Sidebar.SidebarState.ToggleExpanded | src/components/layout/Sidebar.jsx:186-191 | the expanded entries become their toggled version |
| EmployeeEdit.AvailableRoles | src/pages/employees/EmployeeEditPage.jsx:68-80 | the API roles limited, in order, to the staff ids; the static staff list when the API gave none |
| EmployeeEdit.AvailableRolesAreStaff | src/pages/employees/EmployeeEditPage.jsx:68-80 | only MANAGER, SALES, DESIGNER and TECHNICIAN are ever offered |
| EmployeeEdit.HasManagerRole | src/pages/employees/EmployeeEditPage.jsx:197 | true exactly when the employee has a role named "Manager" |
| EmployeeEdit.StoreHasManager | src/pages/employees/EmployeeEditPage.jsx:193-199 | true exactly when another employee of that store has a Manager role |
| EmployeeEdit.CanSelectManagerRole | src/pages/employees/EmployeeEditPage.jsx:202-205 | always allowed before a store is chosen; otherwise allowed exactly when the store has no other Manager |
| EmployeeEdit.OwnManagerRoleDoesNotBlock | src/pages/employees/EmployeeEditPage.jsx:195 | the employee being edited never blocks their own Manager role |
| EmployeeEdit.BlockedIffCheckboxDisabled | src/pages/employees/EmployeeEditPage.jsx:207-216 | for an offered Manager role, the handler refuses it exactly when the page shows its checkbox disabled (line 532) |
| EmployeeEdit.LoadedText | src/pages/employees/EmployeeEditPage.jsx:131-136 | a present field is kept and a missing one becomes empty |
| EmployeeEdit.LoadForm | src/pages/employees/EmployeeEditPage.jsx:130-143 | every field, the account's username and role id included, is filled from the employee or left empty; `isActive` defaults to true only when absent; role ids in role order |
| EmployeeEdit.LoadKeepsExplicitInactive | src/pages/employees/EmployeeEditPage.jsx:140 | an explicit `isActive: false` survives loading |
| EmployeeEdit.AccountPrefixIffNested | src/pages/employees/EmployeeEditPage.jsx:153 | exactly the account inputs carry the "account." prefix |
| EmployeeEdit.ApplyInput | src/pages/employees/EmployeeEditPage.jsx:149-181 | the input's own field takes the new value and the others are kept; choosing a store clears the roles |
| EmployeeEdit.ErrorKeyOf | src/pages/employees/EmployeeEditPage.jsx:184 | the error entry has the same name as the input, and inputs without an entry have none |
| EmployeeEdit.WithEntry | src/pages/employees/EmployeeEditPage.jsx:185-188 | one error entry is replaced and every other entry is kept |
| EmployeeEdit.EmailPartSlice | src/pages/employees/EmployeeEditPage.jsx:240 | a slice matches `[^\s@]*` exactly when none of its characters is white space or `@` |
| EmployeeEdit.PatternIsShape | src/pages/employees/EmployeeEditPage.jsx:240 | a match of the email pattern has no white space, exactly one `@` with text before it, and an inner `.` after it |
| EmployeeEdit.ShapeIsPattern | src/pages/employees/EmployeeEditPage.jsx:240 | every string of that shape matches the email pattern |
| EmployeeEdit.EmailPatternIsShape | src/pages/employees/EmployeeEditPage.jsx:240 | the email pattern accepts exactly the strings of that shape |
| EmployeeEdit.NoErrorsIffPasses | src/pages/employees/EmployeeEditPage.jsx:227-263 | the error object is empty exactly when every test passes |
| EmployeeEdit.EmailAcceptedIffShape | src/pages/employees/EmployeeEditPage.jsx:238-242 | an email is accepted (not blank and matching) exactly when it has the accepted shape |
| EmployeeEdit.PhonePatternNotBlank | src/pages/employees/EmployeeEditPage.jsx:244-248 | a phone number matching the pattern is never blank |
| EmployeeEdit.BlankIffIsBlank | src/pages/employees/EmployeeEditPage.jsx:230 | `!s.trim()` holds exactly for strings of white space only |
| EmployeeEdit.PassesIffRequirements | src/pages/employees/EmployeeEditPage.jsx:227-263 | the tests all pass exactly when the form meets each field's requirement |
| EmployeeEdit.NoErrorsIffRequirements | src/pages/employees/EmployeeEditPage.jsx:227-263 | the form has no errors exactly when it meets every requirement |
| EmployeeEdit.PhoneErrorIff | src/pages/employees/EmployeeEditPage.jsx:244-248 | a blank phone gets "required"; a non-blank one gets "invalid" exactly when it is not 10 or 11 digits, and no error otherwise |
| EmployeeEdit.PaddedPhoneRefused | src/pages/employees/EmployeeEditPage.jsx:246 | the format test sees the untrimmed input, so a leading space is refused as invalid |
| EmployeeEdit.RecordErrors | src/pages/employees/EmployeeEditPage.jsx:228-260 | the field-by-field filling of the error object yields `ErrorsOf`, whose emptiness is characterised above |
| EmployeeEdit.EmployeeEditPage.constructor | src/pages/employees/EmployeeEditPage.jsx:28-44 | empty form, account active, no roles, no errors |
| EmployeeEdit.EmployeeEditPage.LoadEmployee | src/pages/employees/EmployeeEditPage.jsx:124-147 | once the employee has arrived the form is replaced by the loaded one; errors stay |
| EmployeeEdit.EmployeeEditPage.HandleInputChange | src/pages/employees/EmployeeEditPage.jsx:149-190 | the form becomes `ApplyInput`; a shown error of that input is cleared and nothing else changes |
| EmployeeEdit.EmployeeEditPage.HandleRoleChange | src/pages/employees/EmployeeEditPage.jsx:207-225 | accepted exactly when the Manager rule does not block; then the role becomes the only one, otherwise the form is unchanged |
| EmployeeEdit.EmployeeEditPage.ValidateForm | src/pages/employees/EmployeeEditPage.jsx:227-264 | the errors become those of the form, and the result is true exactly when the form meets every requirement |
| TemplateLibrary.FilterTemplates | src/pages/templates/TemplateLibraryPage.jsx:198-207 | keeps, in order, exactly the matching templates |
| TemplateLibrary.InitialCriteriaKeepAll | src/pages/templates/TemplateLibraryPage.jsx:19-22 | the opening criteria (empty search, "all" selectors) keep every template |
| TemplateLibrary.SearchIgnoresCase | src/pages/templates/TemplateLibraryPage.jsx:199-201 | lower-casing the search term does not change the result |
| TemplateLibrary.NarrowingCategoryShrinks | src/pages/templates/TemplateLibraryPage.jsx:202 | choosing a category after "all" only removes templates |
| TemplateLibrary.TotalPages | src/pages/templates/TemplateLibraryPage.jsx:210 | the page count is the ceiling of the template count over 12 |
| TemplateLibrary.PageOf | src/pages/templates/TemplateLibraryPage.jsx:211-214 | a page holds at most 12 templates: those from position `12 (page - 1)` on, in order |
| TemplateLibrary.Min | src/pages/templates/TemplateLibraryPage.jsx:644 | the smaller of two numbers |
| TemplateLibrary.PageNonEmptyIffInRange | src/pages/templates/TemplateLibraryPage.jsx:210-214 | a page is non-empty exactly when its number is at most the page count |
| TemplateLibrary.PagesUpToIsPrefix | src/pages/templates/TemplateLibraryPage.jsx:211-214 | the first k pages laid end to end are the first 12k templates |
| TemplateLibrary.PagesCoverAll | src/pages/templates/TemplateLibraryPage.jsx:210-214 | all the pages laid end to end give back the filtered list |
| TemplateLibrary.PageOfPosition | src/pages/templates/TemplateLibraryPage.jsx:211-214 | the template at position i is on page `i / 12 + 1`, at place `i % 12` |
| TemplateLibrary.ToggleSelection | src/pages/templates/TemplateLibraryPage.jsx:231-237 | an unselected id is appended; a selected one is removed and the other ids are kept in order |
| TemplateLibrary.ToggleKeepsNoDuplicates | src/pages/templates/TemplateLibraryPage.jsx:231-237 | toggling never introduces a duplicate id |
| TemplateLibrary.ToggleTwiceRestores | src/pages/templates/TemplateLibraryPage.jsx:231-237 | toggling an unselected id twice restores the selection |
| TemplateLibrary.SelectAllResult | src/pages/templates/TemplateLibraryPage.jsx:223-229 | equal counts clear the selection; otherwise the selection becomes the ids of the page, in order |
| TemplateLibrary.SelectAllTwiceClears | src/pages/templates/TemplateLibraryPage.jsx:223-229 | selecting all and pressing again clears the selection |
| TemplateLibrary.SelectAllComparesCountsOnly | src/pages/templates/TemplateLibraryPage.jsx:224 | two selected ids that are not on a two-template page are cleared, not replaced |
| TemplateLibrary.InfoOrFirst | src/pages/templates/TemplateLibraryPage.jsx:240-249 | the entry with the id if there is one, otherwise the first entry |
| TemplateLibrary.CategoryInfo | src/pages/templates/TemplateLibraryPage.jsx:240-243 | always an entry of the category table |
| TemplateLibrary.VehicleTypeInfo | src/pages/templates/TemplateLibraryPage.jsx:246-249 | always an entry of the vehicle-type table |
| TemplateLibrary.KnownCategoryInfo | src/pages/templates/TemplateLibraryPage.jsx:143-151 | "luxury" gives its own name and colour |
| TemplateLibrary.UnknownCategoryInfo | src/pages/templates/TemplateLibraryPage.jsx:240-243 | an unknown category falls back to the "all" entry |
| TemplateLibrary.KnownVehicleTypeInfo | src/pages/templates/TemplateLibraryPage.jsx:154-159 | "truck" gives its own name |
| TemplateLibrary.UnknownVehicleTypeInfo | src/pages/templates/TemplateLibraryPage.jsx:246-249 | an unknown vehicle type falls back to the "all" entry |
| TemplateLibrary.TemplateLibraryPage.constructor | src/pages/templates/TemplateLibraryPage.jsx:19-28 | opening criteria, no selection, page one |
| TemplateLibrary.TemplateLibraryPage.Filtered | src/pages/templates/TemplateLibraryPage.jsx:198-207 | exactly the templates matching the current criteria |
| TemplateLibrary.TemplateLibraryPage.Pages | src/pages/templates/TemplateLibraryPage.jsx:210 | enough pages of 12 for every filtered template |
| TemplateLibrary.TemplateLibraryPage.Shown | src/pages/templates/TemplateLibraryPage.jsx:211-214 | at most 12 templates, each matching the current criteria |
| TemplateLibrary.TemplateLibraryPage.SetCriteria | src/pages/templates/TemplateLibraryPage.jsx:334 | the criteria change; the selection and the page number stay (also lines 362, 370, 379) |
| TemplateLibrary.TemplateLibraryPage.SelectTemplate | src/pages/templates/TemplateLibraryPage.jsx:231-237 | the selection becomes its toggled version |
| TemplateLibrary.TemplateLibraryPage.SelectAll | src/pages/templates/TemplateLibraryPage.jsx:223-229 | the selection becomes `SelectAllResult` of the page shown |
| TemplateLibrary.TemplateLibraryPage.PreviousPage | src/pages/templates/TemplateLibraryPage.jsx:641-653 | shown only with more than one page; stays on page one, otherwise goes back one page, never below one |
| TemplateLibrary.TemplateLibraryPage.NextPage | src/pages/templates/TemplateLibraryPage.jsx:641-661 | shown only with more than one page; stays on the last page, otherwise goes on one page, never past the last page from within range |
| ServiceManagement.DecalTypeName | src/pages/services/ServiceManagementPage.jsx:97 | the decal type's name when there is a decal type with a name |
| ServiceManagement.ServiceIcon | src/pages/services/ServiceManagementPage.jsx:64-76 | the tabled icon for a known name, the car otherwise |
| ServiceManagement.ServiceColor | src/pages/services/ServiceManagementPage.jsx:79-91 | the tabled colour for a known name, blue otherwise; never empty |
| ServiceManagement.TablesCoverSameNames | src/pages/services/ServiceManagementPage.jsx:64-91 | the icon and colour tables know the same eight names |
| ServiceManagement.ServiceLookups | src/pages/services/ServiceManagementPage.jsx:64-91 | a tabled name, an unknown name and a missing name each give the expected icon and colour |
| ServiceManagement.TransformService | src/pages/services/ServiceManagementPage.jsx:94-105 | the row copies the service's fields; a missing category or description gets its default; icon and colour come from the name |
| ServiceManagement.TransformServices | src/pages/services/ServiceManagementPage.jsx:94-105 | one row per service, in the same order |
| ServiceManagement.RowsHaveCategoryAndDescription | src/pages/services/ServiceManagementPage.jsx:97-98 | every row has a non-empty category and description |
| ServiceManagement.CategoryButtons | src/pages/services/ServiceManagementPage.jsx:108-114 | the "all" button followed by one button per decal type, in order |
| ServiceManagement.FilterServices | src/pages/services/ServiceManagementPage.jsx:117-122 | keeps, in order, exactly the rows matching the search and the category |
| ServiceManagement.InitialFilterKeepsAll | src/pages/services/ServiceManagementPage.jsx:117-122 | an empty search with "all" selected lists every row |
| ServiceManagement.NamelessCategoryMatchesNothing | src/pages/services/ServiceManagementPage.jsx:120 | the button of a nameless decal type matches no row |
| ServiceManagement.ActiveCount | src/pages/services/ServiceManagementPage.jsx:233 | at most the number of services; zero exactly when none is active |
| ServiceManagement.ListedCountBounded | src/pages/services/ServiceManagementPage.jsx:258 | the "filtered" counter never exceeds the total counter at line 220 |
| DecalTemplateEdit.LoadForm | src/pages/decal-templates/EditDecalTemplatePage.jsx:45-51 | each field is taken from the template, or empty when missing or empty |
| DecalTemplateEdit.CheckImage | src/pages/decal-templates/EditDecalTemplatePage.jsx:68-81 | no file, then not an image, then over 5 MiB, each stated as an exact condition; otherwise accepted |
| DecalTemplateEdit.SizeBoundIsInclusive | src/pages/decal-templates/EditDecalTemplatePage.jsx:78 | exactly 5 MiB passes, one byte more does not |
| DecalTemplateEdit.TypeCheckedBeforeSize | src/pages/decal-templates/EditDecalTemplatePage.jsx:72-81 | an oversized file that is not an image is refused as not an image |
| DecalTemplateEdit.FormErrors | src/pages/decal-templates/EditDecalTemplatePage.jsx:149-159 | an error for the name exactly when it is blank, for the type exactly when none is chosen; messages are non-empty |
| DecalTemplateEdit.NoErrorsIffSubmittable | src/pages/decal-templates/EditDecalTemplatePage.jsx:160-161 | no errors exactly when the name is not blank and a type is chosen |
| DecalTemplateEdit.SubmitPayload | src/pages/decal-templates/EditDecalTemplatePage.jsx:173-177 | the name trimmed, an empty image URL sent as null, the type as it is |
| DecalTemplateEdit.ValidPayload | src/pages/decal-templates/EditDecalTemplatePage.jsx:173-177 | a valid form sends a non-empty name without surrounding spaces and a decal type |
| DecalTemplateEdit.SetField | src/pages/decal-templates/EditDecalTemplatePage.jsx:135-138 | only the input's own field changes |
| DecalTemplateEdit.DecalTemplateEditor.constructor | src/pages/decal-templates/EditDecalTemplatePage.jsx:20-29 | empty form, no errors, no file, no preview |
| DecalTemplateEdit.DecalTemplateEditor.LoadTemplate | src/pages/decal-templates/EditDecalTemplatePage.jsx:45-57 | the form is loaded; the preview shows the template's image when it has one |
| DecalTemplateEdit.DecalTemplateEditor.HandleImageUpload | src/pages/decal-templates/EditDecalTemplatePage.jsx:67-106 | a refused file changes nothing; a successful upload sets the URL and keeps the preview; a failed one drops the file and the preview |
| DecalTemplateEdit.DecalTemplateEditor.RemoveImage | src/pages/decal-templates/EditDecalTemplatePage.jsx:108-115 | no file, no preview, an empty image URL; the other fields stay |
| DecalTemplateEdit.DecalTemplateEditor.HandleInputChange | src/pages/decal-templates/EditDecalTemplatePage.jsx:133-147 | only the input's field changes; its shown error becomes empty and the other errors stay |
| DecalTemplateEdit.DecalTemplateEditor.ValidateForm | src/pages/decal-templates/EditDecalTemplatePage.jsx:149-162 | the errors become those of the form, and the result is true exactly when the form is submittable |
| DecalTemplateEdit.DecalTemplateEditor.HandleSubmit | src/pages/decal-templates/EditDecalTemplatePage.jsx:164-180 | nothing is sent from an invalid form; a valid one sends its payload and marks the page as submitting |

## Left out

- Network, caching and UI feedback are not modelled: React Query, toasts, console logging, navigation and the JSX markup. Fetch outcomes, the upload result and the object URL are parameters instead.
- DashboardStats.GetDashboardStats: `Promise.all` rejects with whichever fetch fails first in time. The model takes the first failure in argument order, because timing is not modelled.
- Text.Lower: `toLowerCase` is modelled for the ASCII letters only. Other characters, such as Vietnamese capitals, are kept as they are.
- DashboardStats.AverageOrderValue: the average is an exact rational. Floating-point rounding is not modelled, and amounts are integers.
- The template library's sample data is not modelled: the mock templates, ratings and download counts. Number formatting (`toFixed`, `toLocaleString`) is left out too.
- The icon components of the category, vehicle-type and service tables are left out. The style list only feeds a select box and is not modelled.
- The delete, duplicate, favourite and download mutations of the library and service pages are left out, along with their confirmation dialogs.
- DecalTemplateEdit.DecalTemplateEditor.HandleImageUpload: the `isUploadingImage` flag is not modelled, because it is false again when the handler ends.
- The update mutations and their retry paths are not modelled. The decal page's reset of `isSubmitting` after a failed request is left out too.
- EmployeeEdit.WithEntry: a missing error entry and one cleared to `null` are both `None`.
- The employee error object is a record with one optional entry per validated field. The other property names that `errors[name]` could read are always empty, so they are not modelled.
- EmployeeEdit.RecordErrors: the tests run first and are given to `RecordErrors` as `Checks`. In the source each test is evaluated just before its message is recorded. The tests have no side effects, so the result is the same.
- ServiceManagement.TransformService: `serviceName` is taken to be present.
- ServiceManagement.ServiceIcon: a lookup of an inherited property name such as "constructor" in the JavaScript object tables is not modelled.
- ServiceManagement.ServiceColor: same as for ServiceIcon.
- EmployeeEdit.EventName: distinct inputs have distinct names, but that is not stated as a lemma.
- Template info entries carry no icon.
- DashboardStats.GroupTotals: every label is a fresh key. The source writes into a plain object, where a label such as "constructor" or "toString" first reads an inherited function and "__proto__" is not stored as an entry; those labels are not modelled.
- DashboardStats.GetDashboardStats: a response that is present but not an array is treated like an absent one. The source reads such a value's `length` for the totals and keeps the value itself in `rawData`; the model gives 0 and an absent collection.
- DashboardStats.GetDashboardStats: collections hold no `null` elements. In the source a `null` order or customer makes the property read throw, and the error is passed on to the caller.
- Sidebar.HasModuleAccess: the permission check itself belongs to the authentication service and is a parameter.
