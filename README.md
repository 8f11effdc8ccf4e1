# Food-ordering front end: a verified model

This project models the rule-bearing core of the Next.js front end of a role-based food-ordering
system. It has three kinds of user: `supplier`, `normalEmployee` and `management`. Suppliers
publish food items and prepare orders. Employees order today's specials for the people of their
department, and they confirm or reject what is delivered. Management sees everything. The front end
does not compute prices and does not enforce the order lifecycle; the backend does. What this front
end does is decide:

- who may reach which page (the edge middleware and the client-side guard);
- which query each role sends (orders, food items, complaints, dashboard metrics);
- which menu entries and buttons each role sees;
- what each form sends (the order status update, the new order, the profile diff, the supplier,
  manager, employee and food-item edit forms, the complaint form and the password recovery flow);
- which records the zod schemas under `src/validation/` accept.

## How the model is built

- One Dafny module per source file, named after the component: `EditOrder` for
  `EditOrderForm.tsx`, `Middleware` for `middleware.ts`, and so on. Shared helpers have modules of
  their own:
  - `Common`: Option, JavaScript `||` and `??` on strings, `find`, `findIndex`, `filter`, and
    `Array.from(new Set(...))`;
  - `Pagination`: the `Math.ceil` and `slice` law used by every table;
  - `FormErrors`: the issue list → field-error map, and the `", "` join of issue messages;
  - `ZodRules`: length bounds, enums and the character classes of the regexes;
  - `UserForms`: what the supplier, manager and employee forms share.
- A React component whose handlers update its state becomes a `class`. The `useState` variables
  are fields, and each handler is a method whose `ensures` gives the whole new state. Toasts are
  recorded as a `toasts` sequence, and `router.push`/`router.replace` as a `navigatedTo` field.
- Every awaited API call is an INPUT to the method that awaits it, as one of two types:
  - `Fetch<T>`: the call returns a value or throws, for callers that see the throw;
  - `Option<T>`: the `src/api` wrapper catches the error and answers `undefined`.
- A method returns the API call it makes, as a datatype of calls (`NoCall` when it makes none), so
  "no request is sent" and "this payload is sent" are statable.
- zod's e-mail and URL checks are the parameters `isEmail` and `isUrl`. The schema library's own
  issue list is an input; where a form acts on it, a `requires` ties "no issues" to the schema
  predicate of this model.
- A button disabled in the rendered form (for example while saving) becomes a `requires` on the
  handler it would call.
- Strings are `seq<char>`, dates are milliseconds as `int`, and prices, the dashboard's two
  monthly price totals and `z.number()` values are `real`. Quantities, ids and the dashboard's
  order and item counts are `int`.

## Model

| member | source | states |
|---|---|---|
| Middleware.Decide | middleware.ts:27-38 | a redirect to sign-in happens only without a token and carries the requested path as `callbackUrl`; "/admin" is reached only with a token and only from an auth page; a request passes with a token only off the auth pages, and without one only off the protected paths |
| Middleware.ProtectedIffLeadingSlash | middleware.ts:9-25 | a path counts as protected exactly when it starts with '/', because "/" is one of the listed prefixes |
| Middleware.NoTokenRedirects | middleware.ts:27-31 | with no token (missing or ""), every path that starts with '/' is redirected to sign-in, with the path as `callbackUrl` |
| Middleware.WithTokenDecision | middleware.ts:33-38 | with a token, a request goes to "/admin" exactly when the path is one of the three auth pages; every other path passes through |
| Middleware.AuthRoutesMatchExactly | middleware.ts:23-25 | auth pages are matched by equality ("/signin/help" passes even with a token), while protection is matched by prefix ("/dashboard/x" is guarded) |
| Middleware.SigninRedirectsToItself | middleware.ts:9-31 | as written, a visitor without a token who asks for "/signin" is redirected to "/signin" again |
| Middleware.IntendedAuthPagesReachable | middleware.ts:9-36 | with "/" matched exactly and the other sections by prefix, a visitor without a token reaches all three auth pages, while "/" and the sections stay guarded |
| Middleware.AuthRoutesOutsideSections | middleware.ts:10-19 | no auth page starts with any listed section other than "/" |
| Middleware.IntendedAgreesWithToken | middleware.ts:27-38 | with a token, the corrected decision and the decision as written agree on every path |
| AuthGuard.Replacements | src/components/auth/AuthGarde.tsx:7-25 | one check issues at most one replace: "/signin" exactly when there is no token and the path is not public; "/" exactly when there is a token and the path is public; nothing otherwise |
| AuthGuard.Guard.constructor | src/components/auth/AuthGarde.tsx:12 | the guard starts loading and has issued no replace |
| AuthGuard.Guard.Check | src/components/auth/AuthGarde.tsx:14-31 | the effect appends exactly the replacements for this token and path, and clears `loading`, so `RendersChildren` holds afterwards |
| AuthGuard.FirstRender | src/components/auth/AuthGarde.tsx:12-33 | a fresh guard renders nothing; after its first check it renders its children even when the check has just asked to replace the route, so a visitor without a token on a guarded page sees that page until the redirect happens |
| AuthGuard.NeverSendsToSignin | src/components/auth/AuthGarde.tsx:15-25 | the store's token text is never empty, so the guard never redirects to sign-in; a public path is sent to "/" and every other path is left alone |
| LocalStorage.TokenHeader | src/store/local_storage.ts:13 | the token text always starts with "Bearer " |
| LocalStorage.Store.constructor | src/store/local_storage.ts:2-3 | a store built from well-formed entries holds exactly those entries |
| LocalStorage.Store.GetLocalUser | src/store/local_storage.ts:5-7 | returns the stored user, or the empty object when no user is stored |
| LocalStorage.Store.SetLocalUser | src/store/local_storage.ts:9-10 | stores the given user under USER, or `{}` when none is given; no other key changes |
| LocalStorage.Store.GetToken | src/store/local_storage.ts:13 | returns "Bearer " followed by the stored token, or "Bearer null" when none is stored |
| LocalStorage.Store.SetToken | src/store/local_storage.ts:16-19 | stores the given token under TOKEN, or "" when none is given; no other key changes |
| LocalStorage.Store.LogoutUser | src/store/local_storage.ts:21-24 | removes exactly TOKEN and USER |
| LocalStorage.UserRoundTrip | src/store/local_storage.ts:5-10 | storing a user and then reading it gives back that user; storing nothing reads back as `{}` |
| LocalStorage.TokenRoundTrip | src/store/local_storage.ts:13-19 | storing token t and then reading the token gives "Bearer " + t |
| LocalStorage.MissingTokenHeader | src/store/local_storage.ts:13 | with no token stored, the token reads as "Bearer null", which is not empty |
| LocalStorage.LogoutEffect | src/store/local_storage.ts:21-24 | after sign-out the user reads as `{}` and the token as "Bearer null", and every other key keeps its value |
| AxiosAuth.Loader.constructor | src/lib/axiosAuth.ts:21 | the global loader flag starts off |
| AxiosAuth.RequestConfig.constructor | src/lib/axiosAuth.ts:20 | a request config carries the given headers and `skipLoading` flag |
| AxiosAuth.FillAuthorization | src/lib/axiosAuth.ts:28-32 | a truthy Authorization header is kept as is; otherwise it is set to the token; no other header changes |
| AxiosAuth.OnRequest | src/lib/axiosAuth.ts:20-35 | the loader is switched on unless `skipLoading` is set, and the same config object is returned with its Authorization header filled from the store |
| AxiosAuth.FilledHeaderIsBearer | src/lib/axiosAuth.ts:28-32 | a request that had no Authorization header leaves carrying one that starts with "Bearer " |
| AxiosAuth.OnRequestError | src/lib/axiosAuth.ts:36-40 | the loader goes off and the error is rethrown unchanged |
| AxiosAuth.OnResponse | src/lib/axiosAuth.ts:45-49 | the loader goes off and the caller receives the response's `data` (undefined when there is no response) |
| AxiosAuth.ErrorMessage | src/lib/axiosAuth.ts:55-72 | 401 leaves the message empty; any other status gives the server's message when it is truthy, else the status's default text, and that text is never empty |
| AxiosAuth.DefaultMessageTable | src/lib/axiosAuth.ts:62-72 | the defaults are 400 "Bad Request", 403 "Forbidden", 404 "Not Found", 500 "Internal Server Error", and "An error occurred" for every other status |
| AxiosAuth.OnResponseError | src/lib/axiosAuth.ts:50-76 | the loader goes off. An error without a response fails while the handler reads its status. Any other error is toasted and rejected with `{code: status, message}`; a 401 also sends the window to "/" |
| AxiosAuth.RejectionShape | src/lib/axiosAuth.ts:75 | the rejection carries the HTTP status as `code`, and its message is empty exactly for a 401 |
| ForgotPassword.ForgotPasswordForm.constructor | src/components/auth/ForgotPasswordForm.tsx:22-24 | the form starts on step 1 with an empty e-mail, nothing loading and no root error |
| ForgotPassword.ForgotPasswordForm.SubmitEmail | src/components/auth/ForgotPasswordForm.tsx:33-38 | the reset-email request is sent exactly when the e-mail passes the forgot-password schema; sending it turns loading on; step and e-mail are unchanged |
| ForgotPassword.ForgotPasswordForm.FinishEmail | src/components/auth/ForgotPasswordForm.tsx:55-71 | success stores the e-mail that was submitted and moves to step 2; failure keeps step and e-mail, and for every failure the HTTP client can throw the root error is "Failed to send reset email"; loading ends either way |
| ForgotPassword.ForgotPasswordForm.SubmitReset | src/components/auth/ForgotPasswordForm.tsx:46-52 | the change request is sent exactly when the code form passes its schema, and it carries the e-mail stored at step 1 with the new password and the code |
| ForgotPassword.ForgotPasswordForm.FinishReset | src/components/auth/ForgotPasswordForm.tsx:74-95 | success navigates to "/"; failure stays on step 2, and for every failure the HTTP client can throw the root error is "Failed to reset password"; loading ends either way |
| ForgotPassword.ForgotPasswordForm.Back | src/components/auth/ForgotPasswordForm.tsx:98-100 | back returns to step 1 and keeps the stored e-mail |
| ForgotPassword.ResponseDataMessage | src/components/auth/ForgotPasswordForm.tsx:62-66 | the HTTP client (`src/lib/axiosAuth.ts:75`) rejects with `{code, message}` (or fails with a TypeError when there is no response), never with an object that has `response`, so `error.response?.data?.message` is undefined for every failure |
| ForgotPassword.SuccessfulRecovery | src/components/auth/ForgotPasswordForm.tsx:55-95 | a full successful run sends the code request for e-mail e, then sends the change request for that same e, ending on step 2 and navigated to "/" |
| EditProfile.InitialForm | src/components/user-profile/EditProfileForm.tsx:23-30 | each field starts as the present, non-empty loaded value, else "" (gender "male"). Phone falls back from `roleDetails.phone` to `phoneNumber`, and address comes from `roleDetails` |
| EditProfile.ValidationInput | src/components/user-profile/EditProfileForm.tsx:94-101 | the schema sees the phone and address only for a supplier (undefined otherwise) and always sees the image URL, "" included |
| EditProfile.NonSupplierIgnoresPhoneAndAddress | src/components/user-profile/EditProfileForm.tsx:98-99 | for a non-supplier, the phone and address typed in never change the verdict |
| EditProfile.EmptyImageUrlBlocksSave | src/components/user-profile/EditProfileForm.tsx:100-103 | a form with no image cannot be saved when the URL check refuses "" |
| EditProfile.ChangedFieldsExact | src/components/user-profile/EditProfileForm.tsx:132-144 | the diff as written. It always carries `id`. A field is included exactly when it differs from the top-level loaded property, and then with the form's value. Phone and address are considered only for a supplier |
| EditProfile.LoadedValuesMeanNoChanges | src/components/user-profile/EditProfileForm.tsx:137-147 | a form that holds exactly the loaded top-level values produces an update with nothing but `id` |
| EditProfile.UneditedSupplierFormIsSent | src/components/user-profile/EditProfileForm.tsx:27-28 | as written, a supplier whose phone and address sit in `roleDetails` still sends both, unedited |
| EditProfile.MissingGenderAlwaysSent | src/components/user-profile/EditProfileForm.tsx:25 | a profile without a gender starts the form at "male", and the diff compares that with the missing gender, so the unedited form sends `gender: "male"` and is never "no changes" |
| EditProfile.IntendedNoChangesIff | src/components/user-profile/EditProfileForm.tsx:132-151 | with the diff taken against the form's initial values, an update holds only `id` exactly when no considered field was edited, so an unedited form is never sent |
| EditProfile.EditProfileForm.constructor | src/components/user-profile/EditProfileForm.tsx:23-35 | the form starts from InitialForm, with no errors, nothing loading or uploading, and the user id `profileData.id \|\| null` |
| EditProfile.EditProfileForm.InputChange | src/components/user-profile/EditProfileForm.tsx:37-49 | typing sets exactly that field and removes only that field's error, and only if it was truthy |
| EditProfile.EditProfileForm.GenderChange | src/components/user-profile/EditProfileForm.tsx:51-62 | choosing a gender sets it and clears only the gender error |
| EditProfile.EditProfileForm.ImageUploadStart | src/components/user-profile/EditProfileForm.tsx:64-74 | an upload starts and only the image error is cleared |
| EditProfile.EditProfileForm.ImageUploadSuccess | src/components/user-profile/EditProfileForm.tsx:77-82 | the uploaded URL becomes the form's image, the upload ends, and a success toast is shown |
| EditProfile.EditProfileForm.ImageUploadError | src/components/user-profile/EditProfileForm.tsx:85-89 | the upload ends with a failure toast and the form is unchanged |
| EditProfile.EditProfileForm.Submit | src/components/user-profile/EditProfileForm.tsx:119-167 | a failed check sends nothing, toasts "Please fix the validation errors" and replaces the errors with the issue map when issues are given. Otherwise errors clear and the update is the diff as written, against the loaded top-level properties. An update with only `id` closes the dialog with "No changes were made." and makes no call. Anything else is sent, so an unedited supplier form with phone and address only in `roleDetails` is sent: success saves and closes, failure toasts the retry message |
| FormErrors.CollectErrors | src/components/user-profile/EditProfileForm.tsx:107-113 | the loop leaves exactly IssueMap(issues), whose keys are the first path elements of the issues |
| FormErrors.IssueMapKeys | src/sections/complaints/complaintsForm.tsx:84-87 | the error map has an entry for every issue's field and no others |
| FormErrors.LastIssueWins | src/sections/complaints/complaintsForm.tsx:85-87 | the message kept for a field is that of the last issue about it |
| FormErrors.FirstMessage | src/sections/complaints/complaintsForm.tsx:91-93 | the toast is the first issue's message, shown exactly when there is an issue |
| FormErrors.ClearError | src/sections/complaints/complaintsForm.tsx:162-172 | deleting a field's error removes that key only when its message is truthy; every other entry is kept as it was |
| FormErrors.JoinMessages | src/sections/managers/ManagerForm.tsx:128 | the messages joined by ", " begin with the first message, and a single message is shown alone |
| ComplaintsForm.ComplaintForm.constructor | src/sections/complaints/complaintsForm.tsx:32-39 | everything starts empty: no supplier, user, date or message, and no errors |
| ComplaintsForm.ComplaintForm.FormData | src/sections/complaints/complaintsForm.tsx:108-113 | the record checked and sent is the user, the supplier and the message, with the picked date, else "now" |
| ComplaintsForm.ComplaintForm.Mount | src/sections/complaints/complaintsForm.tsx:42-53 | a truthy stored user id is taken; otherwise "Please log in to submit a complaint" is toasted |
| ComplaintsForm.ComplaintForm.SelectSupplier | src/sections/complaints/complaintsForm.tsx:162-172 | the supplier is set and only its error is cleared |
| ComplaintsForm.ComplaintForm.ChangeDate | src/sections/complaints/complaintsForm.tsx:174-189 | an empty date string is ignored; otherwise the date is set and only its error is cleared |
| ComplaintsForm.ComplaintForm.ChangeMessage | src/sections/complaints/complaintsForm.tsx:191-200 | the message is set and only the comment error is cleared |
| ComplaintsForm.ComplaintForm.Submit | src/sections/complaints/complaintsForm.tsx:99-159 | without a user id, "User not authenticated. Please log in again." is toasted and nothing else happens. A failed check sets the issue map and toasts the first message. A valid record is sent. The create wrapper catches every failure and answers undefined, so only a truthy answer matters: it resets supplier, message, date (to now) and errors and toasts success, while a falsy one keeps the form and toasts nothing. Loading ends on every path |
| ComplaintsForm.SentRecordIsValid | src/validation/feedback.ts:3-8 | a record that reaches the API has a user, a supplier, a comment and a date no earlier than the epoch; the date is never checked against "today" |
| ComplaintsForm.FailedCheckErrors | src/sections/complaints/complaintsForm.tsx:84-93 | after a failed check, the error map is keyed by the issues' fields, the last issue on a field wins, and the first message is toasted |
| EditOrder.StatusOptions | src/sections/orders/EditOrderForm.tsx:89-103 | a supplier is offered exactly pending, prepared and collected; "normalEmployee" and "manager" exactly completed and non-completed; every other role nothing |
| EditOrder.StatusOptionsByRole | src/sections/orders/EditOrderForm.tsx:89-103 | "management" is offered no status at all; a supplier status is offered only to a supplier, and a consumer status only to "normalEmployee" or "manager" |
| EditOrder.ValidateForm | src/sections/orders/EditOrderForm.tsx:105-122 | the check passes exactly when the status is set, a non-completion has a reason, and a collection has a collector; otherwise it gives the first failing check's message, in that order |
| EditOrder.ValidationIgnoresRole | src/sections/orders/EditOrderForm.tsx:105-122 | every other non-empty status passes, including one the role is not offered (a supplier choosing "completed") |
| EditOrder.Payload | src/sections/orders/EditOrderForm.tsx:132-142 | a non-completion sends status, received items and reason; a collection sends status and collector; every other status sends the status alone |
| EditOrder.PayloadKeysByStatus | src/sections/orders/EditOrderForm.tsx:132-142 | received items and reason travel exactly with a non-completion, the collector exactly with a collection, and `{status}` alone otherwise |
| EditOrder.InitialReceived | src/sections/orders/EditOrderForm.tsx:59-66 | the received list has one entry per order line, in order, each received quantity equal to the ordered one |
| EditOrder.SetReceived | src/sections/orders/EditOrderForm.tsx:74-83 | a quantity change keeps the length and rewrites exactly the entries with that line id |
| EditOrder.SetReceivedLastWins | src/sections/orders/EditOrderForm.tsx:74-83 | setting the same line twice keeps only the second quantity |
| EditOrder.SetReceivedCommutes | src/sections/orders/EditOrderForm.tsx:74-83 | changes to different lines can be made in either order |
| EditOrder.EditOneLine | src/sections/orders/EditOrderForm.tsx:59-83 | when line ids are distinct, editing line k of the fresh list changes entry k only |
| EditOrder.ParseQuantity | src/sections/orders/EditOrderForm.tsx:257 | a parsed number is kept as is, and unparsable text becomes 0 |
| EditOrder.QuantitiesUnbounded | src/sections/orders/EditOrderForm.tsx:257 | a received quantity can be negative or above the ordered quantity |
| EditOrder.EditOrderForm.constructor | src/sections/orders/EditOrderForm.tsx:33-41 | the form starts with empty status, collector, reason and received list, and no user |
| EditOrder.EditOrderForm.Load | src/sections/orders/EditOrderForm.tsx:44-68 | a stored user with a role and an id becomes the current user and the default collector; a present order fills the received list from its lines |
| EditOrder.EditOrderForm.ChangeStatus | src/sections/orders/EditOrderForm.tsx:70-72 | only the status changes |
| EditOrder.EditOrderForm.ChangeReason | src/sections/orders/EditOrderForm.tsx:85-87 | only the reason changes |
| EditOrder.EditOrderForm.ChangeCollector | src/sections/orders/EditOrderForm.tsx:221-224 | only the collector changes |
| EditOrder.EditOrderForm.ChangeQuantity | src/sections/orders/EditOrderForm.tsx:74-83 | the received list becomes SetReceived with the parsed quantity; nothing else changes |
| EditOrder.EditOrderForm.Submit | src/sections/orders/EditOrderForm.tsx:124-153 | without an order nothing happens. A failing check toasts its message and sends nothing. Otherwise the status's payload is sent for the order's id, success is toasted and the parent's `onUpdate` is called once. The orders table passes an `onUpdate` that throws; the silent catch swallows it, so the form's state is as after a normal call |
| NewOrder.UpdateAt | src/sections/todaySpecial/NewOrderForm.tsx:83-87 | an update keeps the number of lines, changes line `index` by applying the field, and leaves every other line as it was |
| NewOrder.RemoveAt | src/sections/todaySpecial/NewOrderForm.tsx:90-92 | a removal drops exactly line `index` and keeps the rest in order; an index outside the list changes nothing |
| NewOrder.UpdateChangesOneField | src/sections/todaySpecial/NewOrderForm.tsx:83-87 | updating a line changes only the named field of that line |
| NewOrder.AddThenRemove | src/sections/todaySpecial/NewOrderForm.tsx:75-92 | removing the line just added gives the draft back |
| NewOrder.SupplierIds | src/sections/todaySpecial/NewOrderForm.tsx:95 | one supplier id per food item, in order |
| NewOrder.Labelled | src/sections/todaySpecial/NewOrderForm.tsx:97-100 | one option per id, in order |
| NewOrder.KeptIds | src/sections/todaySpecial/NewOrderForm.tsx:95-96 | the ids turned into options are each truthy, come from the items, have no repeats, and include every truthy supplier id of the items |
| NewOrder.SupplierOptionsSpec | src/sections/todaySpecial/NewOrderForm.tsx:95-100 | the options have no repeated value. Each value is a non-empty supplier id of some item, labelled "Supplier " + id. Every truthy supplier id of the items is offered |
| NewOrder.FilterKeepsDistinct | src/sections/todaySpecial/NewOrderForm.tsx:95-96 | filtering a list without duplicates leaves a list without duplicates |
| NewOrder.SupplierOptionsAtMostItems | src/sections/todaySpecial/NewOrderForm.tsx:95-100 | there are never more supplier options than food items |
| NewOrder.DistinctLength | src/sections/todaySpecial/NewOrderForm.tsx:95 | de-duplication never lengthens a list |
| NewOrder.MealType | src/sections/todaySpecial/NewOrderForm.tsx:62 | the meal type is the first item's supplier food type (or "" when it has none), and "" when there are no items |
| NewOrder.NamedUsersOnly | src/sections/todaySpecial/NewOrderForm.tsx:50 | the listed department users are exactly those with both an id and a name |
| NewOrder.CheckDraft | src/sections/todaySpecial/NewOrderForm.tsx:106-124 | a draft passes exactly when a supplier is selected, there is at least one line, and no line lacks a food item or a user or has a quantity of 0 or less; otherwise the first failing check's message is given |
| NewOrder.BlankLineRefused | src/sections/todaySpecial/NewOrderForm.tsx:78-119 | a draft that still holds a freshly added line never passes |
| NewOrder.BuildOrder | src/sections/todaySpecial/NewOrderForm.tsx:127-136 | the order is always "pending". Its creator is the current user id, or "U002" when that is empty. It carries the selected supplier, the department, the meal type and the lines unchanged |
| NewOrder.UsersToast | src/sections/todaySpecial/NewOrderForm.tsx:46-58 | without a truthy department id, "User department not found"; a failed user fetch, "Failed to fetch department users"; nothing otherwise |
| NewOrder.NewOrderForm.constructor | src/sections/todaySpecial/NewOrderForm.tsx:25-34 | the form starts loading, with no lines, no supplier and an empty meal type, for the stored user and the parsed department id |
| NewOrder.NewOrderForm.Load | src/sections/todaySpecial/NewOrderForm.tsx:37-72 | a failed departments fetch toasts "Failed to load form data" and loads nothing. Otherwise the named department users are taken, with the users toast. A failed items fetch toasts "Failed to load form data"; a successful one sets the items and the meal type. Loading ends on every path |
| NewOrder.NewOrderForm.AddOrderItem | src/sections/todaySpecial/NewOrderForm.tsx:75-80 | a blank line (food item 0, no user, quantity 1) is appended; nothing else changes |
| NewOrder.NewOrderForm.UpdateOrderItem | src/sections/todaySpecial/NewOrderForm.tsx:83-87 | the lines become UpdateAt of the old lines; nothing else changes |
| NewOrder.NewOrderForm.RemoveOrderItem | src/sections/todaySpecial/NewOrderForm.tsx:90-92 | the lines become RemoveAt of the old lines; nothing else changes |
| NewOrder.NewOrderForm.SelectSupplier | src/sections/todaySpecial/NewOrderForm.tsx:27 | only the selected supplier changes |
| NewOrder.NewOrderForm.Submit | src/sections/todaySpecial/NewOrderForm.tsx:103-146 | a failing check toasts its message and sends nothing. A passing draft sends BuildOrder, toasts "Order created successfully!" and navigates to "/orders" |
| OrdersTable.QueryFor | src/sections/orders/OrdersTable.tsx:59-68 | "normalEmployee" fetches by its own user id, "management" fetches all orders, "supplier" fetches by its role id, and every other role fetches nothing |
| OrdersTable.QueryInputs | src/sections/orders/OrdersTable.tsx:59-64 | only the supplier's query depends on the role id, and only the employee's depends on the user id |
| OrdersTable.StatusColorCases | src/sections/orders/OrdersTable.tsx:115-132 | pending is warning, prepared info, completed success, non-completed error and cancelled dark, each exactly for that status; light marks collected and every other status |
| OrdersTable.FindOrder | src/sections/orders/OrdersTable.tsx:91 | the first order with that id, or none exactly when no order has it |
| OrdersTable.OrderTable.constructor | src/sections/orders/OrdersTable.tsx:29-38 | the table starts loading on page 1, with no orders, no error and the popup closed in view mode |
| OrdersTable.OrderTable.Mount | src/sections/orders/OrdersTable.tsx:40-78 | a user without a role or an id fetches nothing and sees "User information not found. Please log in again.". Otherwise the role's query is made: an undefined answer shows no orders, and an unknown role sees "Invalid user role". Loading ends on every path |
| OrdersTable.OrderTable.TotalPagesShown | src/sections/orders/OrdersTable.tsx:80 | the page count is the least number of five-row pages that holds every order |
| OrdersTable.OrderTable.CurrentItems | src/sections/orders/OrdersTable.tsx:81-82 | the page shows at most five orders, all from the list, and none exactly when it lies past the last page |
| OrdersTable.OrderTable.PageChange | src/sections/orders/OrdersTable.tsx:84-86 | only the page number changes |
| OrdersTable.OrderTable.HandleView | src/sections/orders/OrdersTable.tsx:89-94 | the popup opens in view mode on the first order with that id, or on none |
| OrdersTable.OrderTable.HandleUpdateStatus | src/sections/orders/OrdersTable.tsx:97-102 | the popup opens in update mode on the first order with that id, or on none |
| OrdersTable.OrderTable.ClosePopup | src/sections/orders/OrdersTable.tsx:270 | the popup's `onClose` closes the popup and keeps its mode and selection |
| FoodItemTable.QueryFor | src/sections/foodItems/FoodItemTable.tsx:50-58 | management fetches every item. A supplier with a user id fetches by its role id. Everyone else fetches nothing (fails closed) |
| FoodItemTable.RowActionsByRole | src/sections/foodItems/FoodItemTable.tsx:241-276 | management gets no buttons. A supplier gets view and delete, plus edit on a row with an id. Every other viewer, a signed-out one included, only gets view. Edit never appears without delete |
| FoodItemTable.FindItem | src/sections/foodItems/FoodItemTable.tsx:80 | the first item with that id, or none exactly when no item has it |
| FoodItemTable.FoodItemsTable.constructor | src/sections/foodItems/FoodItemTable.tsx:27-36 | the table starts loading on page 1, with no items, no user, the popup closed in add mode and the delete dialog closed |
| FoodItemTable.FoodItemsTable.FetchFoodItems | src/sections/foodItems/FoodItemTable.tsx:45-68 | the role's query is made; its items replace the list; a refused role or a failed fetch keeps the list and sets "Failed to fetch food items. Please try again." |
| FoodItemTable.FoodItemsTable.Mount | src/sections/foodItems/FoodItemTable.tsx:38-43 | the stored user is kept as the current user and its fetch is made |
| FoodItemTable.FoodItemsTable.CurrentItems | src/sections/foodItems/FoodItemTable.tsx:70-72 | the page shows at most three items, all from the list, and none exactly when it lies past the last page |
| FoodItemTable.FoodItemsTable.PageChange | src/sections/foodItems/FoodItemTable.tsx:74-76 | only the page number changes |
| FoodItemTable.FoodItemsTable.Open | src/sections/foodItems/FoodItemTable.tsx:78-90 | the edit and view buttons open the popup in their mode on the first item with that id, or on none |
| FoodItemTable.FoodItemsTable.HandleDelete | src/sections/foodItems/FoodItemTable.tsx:92-98 | the confirmation opens, on that item, only when an item has the id; otherwise nothing changes |
| FoodItemTable.FoodItemsTable.ConfirmDelete | src/sections/foodItems/FoodItemTable.tsx:100-110 | with nothing selected nothing happens. Otherwise "Food item deleted successfully!" is toasted and the table is fetched again; no deletion is requested |
| FoodItemTable.FoodItemsTable.CloseDelete | src/sections/foodItems/FoodItemTable.tsx:316 | the delete dialog's `onClose` closes the dialog and changes nothing else |
| FoodItemTable.FoodItemsTable.ConfirmButton | src/components/common/DeleteConfirmation.tsx:30-33 | the dialog's delete button runs `onConfirm` and then `onClose`: the dialog always closes, the selection stays, and the toast and refetch are those of ConfirmDelete |
| FoodItemTable.FoodItemsTable.ClosePopup | src/sections/foodItems/FoodItemTable.tsx:296 | the form popup's `onClose` closes the popup and keeps its mode and selection |
| FoodItemTable.FoodItemsTable.FormSubmitted | src/sections/foodItems/FoodItemTable.tsx:307-310 | the popup closes and the current user's fetch is made again |
| Pagination.TotalPages | src/sections/orders/OrdersTable.tsx:80 | `Math.ceil(n / perPage)`: the least page count whose pages hold all n rows |
| Pagination.SliceIndex | src/sections/orders/OrdersTable.tsx:82 | a slice index is clamped into the list |
| Pagination.PageAtMostPerPage | src/sections/orders/OrdersTable.tsx:81-82 | a page never holds more than `perPage` rows, whatever page number is asked for |
| Pagination.PageItemAt | src/sections/orders/OrdersTable.tsx:81-82 | row k of page p is row (p - 1) * perPage + k of the list |
| Pagination.PageEmptyIffBeyondLast | src/sections/orders/OrdersTable.tsx:80-82 | a page numbered from 1 is empty exactly when it lies past the last page |
| Pagination.PageAsSlice | src/sections/orders/OrdersTable.tsx:81-82 | for a page numbered from 1 the slice bounds are non-negative, so the page is a plain sub-range of the list |
| Pagination.FirstPagesPrefix | src/sections/orders/OrdersTable.tsx:80-82 | pages 1..m together are the first m * perPage rows |
| Pagination.PagesCoverList | src/sections/orders/OrdersTable.tsx:80-82 | pages 1..totalPages, concatenated, give back the whole list: nothing is lost or repeated |
| Pagination.PageRowsFromList | src/sections/complaints/complaintsTable.tsx:67-69 | every row a page shows is a row of the list |
| Pagination.PageFacts | src/sections/foodItems/FoodItemTable.tsx:70-72 | a page holds at most `perPage` rows, all from the list, and is empty exactly when it lies past the last page |
| Common.OrElse | src/components/user-profile/EditProfileForm.tsx:24-29 | `x \|\| d` falls back to d exactly when x is missing or "" (or already d), and never yields "" when d is non-empty |
| Common.Or | src/components/user-profile/EditProfileForm.tsx:27 | `a \|\| b` is a when a is a non-empty string, else b |
| Common.Coalesce | src/sections/managers/ManagerForm.tsx:63-69 | `x ?? d` falls back only when x is missing |
| Common.OrElseDiffersFromCoalesce | src/sections/managers/ManagerForm.tsx:63 | on "" the two defaulting operators differ: `\|\|` takes the default and `??` keeps "" |
| Common.FirstIndex | src/sections/orders/OrdersTable.tsx:91 | the index of the first element that satisfies the test, or none exactly when no element does |
| Common.Find | src/sections/foodItems/FoodItemTable.tsx:93 | the first element that satisfies the test, or none exactly when no element does |
| Common.Filter | src/sections/todaySpecial/NewOrderForm.tsx:117-119 | the kept elements all satisfy the test and come from the list; every satisfying element is kept; the result is empty exactly when none satisfies it |
| Common.FirstOccurrence | src/sections/todaySpecial/NewOrderForm.tsx:95 | the position of the first occurrence of an element |
| Common.DistinctElements | src/sections/todaySpecial/NewOrderForm.tsx:95 | `Array.from(new Set(s))` has no repeats and holds exactly the elements of s |
| Common.DistinctFirstOccurrenceOrder | src/sections/todaySpecial/NewOrderForm.tsx:95 | the distinct elements come in the order of their first occurrence in s |
| ComplaintsTable.QueryFor | src/sections/complaints/complaintsTable.tsx:40-58 | a user without a role fetches nothing. A supplier with a role id fetches that supplier's complaints. Every other role fetches all complaints (fails open) |
| ComplaintsTable.SupplierWithoutRoleIdSeesAll | src/sections/complaints/complaintsTable.tsx:43-52 | a supplier without a role id makes the same query as management: all complaints |
| ComplaintsTable.FindComplaint | src/sections/complaints/complaintsTable.tsx:76 | the first complaint with that id, or none exactly when no complaint has it |
| ComplaintsTable.FeedbacksTable.constructor | src/sections/complaints/complaintsTable.tsx:21-27 | the table starts loading on page 1, with no complaints, no error and the popup closed |
| ComplaintsTable.FeedbacksTable.Mount | src/sections/complaints/complaintsTable.tsx:30-65 | with a role, the query's answer (undefined reads as none) replaces the list and clears the error. Without a role nothing is fetched and "Please log in to submit a complaint" is toasted. Loading ends either way |
| ComplaintsTable.FeedbacksTable.CurrentItems | src/sections/complaints/complaintsTable.tsx:67-69 | the page shows at most five complaints, all from the list, and none exactly when it lies past the last page |
| ComplaintsTable.FeedbacksTable.PageChange | src/sections/complaints/complaintsTable.tsx:71-73 | only the page number changes |
| ComplaintsTable.FeedbacksTable.HandleView | src/sections/complaints/complaintsTable.tsx:75-79 | the popup opens on the first complaint with that id, or on none |
| ComplaintsTable.FeedbacksTable.ClosePopup | src/sections/complaints/complaintsTable.tsx:204 | the popup's `onClose` closes the popup and keeps the selected complaint |
| EcommerceMetrics.QueryFor | src/components/ecommerce/EcommerceMetrics.tsx:33-50 | a supplier requests its own summary for this year and month `getMonth() + 1`, which lies in 1..12. Management requests the all-supplier totals. Every other role requests nothing |
| EcommerceMetrics.Shown | src/components/ecommerce/EcommerceMetrics.tsx:112 | a figure shows its value, or the 0 of its type when the summary or the figure is missing; it works alike for the `real` price totals and the `int` counts |
| EcommerceMetrics.CardsShown | src/components/ecommerce/EcommerceMetrics.tsx:112-157 | a fractional total such as 1234.5 is shown as it is, and a summary without figures shows 0 on all four cards |
| EcommerceMetrics.ViewBadge | src/components/ecommerce/EcommerceMetrics.tsx:95-103 | the badge reads "Manager View" exactly for management and "Supplier View" for every other role |
| EcommerceMetrics.HospitalPriceCaption | src/components/ecommerce/EcommerceMetrics.tsx:117 | the caption reads "Hospital Price" exactly for a supplier and "Total Hospital Price" otherwise |
| EcommerceMetrics.EmployeeLabelsMixed | src/components/ecommerce/EcommerceMetrics.tsx:95-117 | the badge and the caption test different roles: an employee gets the supplier's badge but the manager's "Total Hospital Price" caption |
| EcommerceMetrics.MetricsCards.constructor | src/components/ecommerce/EcommerceMetrics.tsx:14 | the cards start loading, with no figures and no role |
| EcommerceMetrics.MetricsCards.FetchMetrics | src/components/ecommerce/EcommerceMetrics.tsx:16-61 | a user without a role id gets "User ID not found" before its role is recorded. Otherwise the role is recorded and its query made. A refused role gets "Unauthorized role". The figures are replaced only by a present answer. Loading ends on every path |
| EcommerceMetrics.OtherRoleSeesZeroes | src/components/ecommerce/EcommerceMetrics.tsx:16-61 | on the state the fetch leaves, a role other than supplier and management requests nothing, has no figures (each shown as the 0 of its type), is no longer loading, sees the "Supplier View" badge and is toasted "User ID not found" without a role id, else "Unauthorized role" |
| AppSidebar.RoleOf | src/layout/AppSidebar.tsx:113-121 | a session role string names one of the three roles exactly when it spells it; any other string names none |
| AppSidebar.Restrict | src/layout/AppSidebar.tsx:122-137 | an entry keeps its name, path and roles. Its sub-entries are narrowed to those the role may see, each from the original list, and every sub-entry the role may see is kept. An entry without sub-entries passes unchanged |
| AppSidebar.FilterSubs | src/layout/AppSidebar.tsx:127-133 | the sub-entries kept are exactly the ones without roles or listing the role |
| AppSidebar.FilterNav | src/layout/AppSidebar.tsx:116-121 | every menu entry is one the role may see |
| AppSidebar.FilterNavKeeps | src/layout/AppSidebar.tsx:116-137 | every entry without roles, or listing the role, appears in the menu with its sub-entries restricted |
| AppSidebar.FilterNavFrom | src/layout/AppSidebar.tsx:116-137 | every menu entry is an allowed entry of the list, restricted |
| AppSidebar.FilterNavCons | src/layout/AppSidebar.tsx:116-137 | the menu is built entry by entry, in the list's order |
| AppSidebar.Unroll | src/layout/AppSidebar.tsx:44-137 | the menu for a role is the concatenation of each of the seven entries' contributions, in order |
| AppSidebar.RestrictComplaints | src/layout/AppSidebar.tsx:79-95 | "Complaints" keeps, of "Complaint Form" and "Complaint View", those that list the role |
| AppSidebar.RestrictUsers | src/layout/AppSidebar.tsx:69-78 | whoever sees "Users" sees all three of its sub-entries |
| AppSidebar.ManagementMenu | src/layout/AppSidebar.tsx:44-102 | management sees every entry and both halves of "Complaints" |
| AppSidebar.SupplierMenu | src/layout/AppSidebar.tsx:69-101 | a supplier's menu is Dashboard, Today Special, Food Items, My Orders, and Complaints with only "Complaint View": no "Users" and no "Departments" |
| AppSidebar.EmployeeMenu | src/layout/AppSidebar.tsx:69-101 | an employee's menu is Dashboard, Today Special, Food Items, My Orders, and Complaints with only "Complaint Form": no "Users" and no "Departments" |
| AppSidebar.UnknownRoleSeesNothing | src/layout/AppSidebar.tsx:44-121 | a missing or unknown role gets an empty menu, because every entry lists its roles |
| AppSidebar.Toggle | src/layout/AppSidebar.tsx:282-293 | clicking the open submenu closes it; clicking any other entry opens that one |
| AppSidebar.ToggleTwice | src/layout/AppSidebar.tsx:282-293 | clicking the same entry twice reopens it if it was the open one; otherwise no submenu is left open |
| AppSidebar.Sidebar.constructor | src/layout/AppSidebar.tsx:106-108 | the sidebar starts with no role, an empty menu and no open submenu |
| AppSidebar.Sidebar.Mount | src/layout/AppSidebar.tsx:111-140 | the stored role is recorded and the menu becomes that role's filtered list |
| AppSidebar.Sidebar.HandleSubmenuToggle | src/layout/AppSidebar.tsx:282-293 | the open submenu becomes Toggle of the old one; nothing else changes |
| AppSidebar.SubPaths | src/layout/AppSidebar.tsx:69-95 | the links of some sub-entries, one per sub-entry, in order |
| AppSidebar.NavPaths | src/layout/AppSidebar.tsx:44-102 | the full menu links to ten paths, in order: the five entry pages, the three user lists, the two complaint pages and the departments page |
| AppSidebar.NavPathsDistinct | src/layout/AppSidebar.tsx:44-102 | no two links of the full menu share a path |
| AppSidebar.AtMostOneHighlighted | src/layout/AppSidebar.tsx:268 | highlighting compares the whole path with the current one, so at most one link of the menu is highlighted at a time |
| AppSidebar.HighlightIsExact | src/layout/AppSidebar.tsx:268 | on "/complaints/view" the complaint view is highlighted and the complaint form at its prefix "/complaints" is not; an entry without a path of its own is never highlighted |
| EditFoodItem.NumberOr0 | src/sections/foodItems/EditFoodItemForm.tsx:57-59 | a present number is kept; a missing one reads as 0 |
| EditFoodItem.UnavailableItemLoadsAsAvailable | src/sections/foodItems/EditFoodItemForm.tsx:60 | as written, an item the server reports as unavailable is shown as available (`available \|\| true` is always true) |
| EditFoodItem.FromLoaded | src/sections/foodItems/EditFoodItemForm.tsx:53-63 | the intended load (`available ?? true`), on which the Findings row's corrected lemma `EditFoodItem.LoadKeepsServerValues` is proved: the loaded form reports the server's availability, and an item without one as available |
| EditFoodItem.FromLoadedAsWritten | src/sections/foodItems/EditFoodItemForm.tsx:53-63 | the load as written: every field as in the intended load except availability, which `|| true` makes always true |
| EditFoodItem.LoadKeepsServerValues | src/sections/foodItems/EditFoodItemForm.tsx:53-63 | every field the server sends reaches the form, and a record with every field missing loads as the blank form. The corrected load differs from the written one exactly on items reported unavailable |
| EditFoodItem.ApplyChange | src/sections/foodItems/EditFoodItemForm.tsx:79-88 | a price typed as text is parsed, and a text that does not parse becomes 0; a name is taken as typed |
| EditFoodItem.ChangeTouchesOneField | src/sections/foodItems/EditFoodItemForm.tsx:81-87 | a change alters only its own field: every other field of the form is kept. An unparsable price gives 0. No change alters the image URL |
| EditFoodItem.FoodItemFormState.constructor | src/sections/foodItems/EditFoodItemForm.tsx:28-43 | the form starts from the blank item (available, prices 0), loading, not saving, with no error |
| EditFoodItem.FoodItemFormState.Load | src/sections/foodItems/EditFoodItemForm.tsx:46-76 | a fetch happens exactly when editing or viewing an item with an id. A found item replaces the form with the load as written, so it is always available. A failed fetch sets and toasts "Failed to load food item details". Loading ends in every case |
| EditFoodItem.FoodItemFormState.HandleChange | src/sections/foodItems/EditFoodItemForm.tsx:79-88 | in view mode the form is unchanged; otherwise the change is applied |
| EditFoodItem.FoodItemFormState.ImageUploadStart | src/sections/foodItems/EditFoodItemForm.tsx:100-102 | only the "Uploading image..." toast is added |
| EditFoodItem.FoodItemFormState.ImageUploadSuccess | src/sections/foodItems/EditFoodItemForm.tsx:91-94 | the uploaded file's URL becomes the image URL, every other field is kept, and a success toast is added |
| EditFoodItem.FoodItemFormState.ImageUploadError | src/sections/foodItems/EditFoodItemForm.tsx:96-98 | the form is kept and "Image upload failed: " followed by the error's message is toasted |
| EditFoodItem.FoodItemFormState.Submit | src/sections/foodItems/EditFoodItemForm.tsx:105-135 | view mode does nothing. Schema issues are toasted joined by ", ", and nothing is sent. A `parse` that throws anything else sends nothing and toasts "Failed to save food item. Please try again.". A valid edit with an id sends the form as the update, toasts success and returns to /food-items; a valid edit without an id does nothing. A valid add hands the form to onSubmit when there is one, and a rejection of that call toasts the same failure text. Saving ends in every case |
| EditSupplier.AsciiLower | src/sections/suppliers/EditSupplierForm.tsx:53 | the result has the input's length, with each capital letter A-Z lowered and every other character kept |
| EditSupplier.AsciiLowerIdempotent | src/sections/suppliers/EditSupplierForm.tsx:53 | lowering twice is lowering once |
| EditSupplier.CapitalisedFoodTypeAccepted | src/sections/suppliers/EditSupplierForm.tsx:53 | a meal type stored capitalised ("Lunch", "DINNER") loads as one the edit schema accepts |
| EditSupplier.FromLoaded | src/sections/suppliers/EditSupplierForm.tsx:44-56 | missing strings load as "" (`??`). An unknown gender loads as "male", so the loaded gender is always an accepted one. The meal type is lowered |
| EditSupplier.Payload | src/sections/suppliers/EditSupplierForm.tsx:82-93 | the update carries the supplier and user ids, the form's phone, address and meal type, and the user's name, e-mail and gender |
| EditSupplier.PayloadRoundTrip | src/sections/suppliers/EditSupplierForm.tsx:82-93 | the form can be rebuilt from the payload: the update loses no field |
| EditSupplier.EditSupplierForm.constructor | src/sections/suppliers/EditSupplierForm.tsx:22-35 | the form starts blank, with gender "male" and meal type "lunch", no user id, and loading |
| EditSupplier.EditSupplierForm.Load | src/sections/suppliers/EditSupplierForm.tsx:38-68 | a fetch happens exactly when editing or viewing with an id. A found supplier fills the form and user id. A supplier without a meal type makes the load throw, toasting "Failed to load supplier details". Loading ends in every case |
| EditSupplier.EditSupplierForm.HandleChange | src/sections/suppliers/EditSupplierForm.tsx:70-73 | in view mode the form is unchanged; otherwise only the named field takes the value |
| EditSupplier.EditSupplierForm.Submit | src/sections/suppliers/EditSupplierForm.tsx:75-110 | an update is sent only for a form the edit schema accepts. View mode does nothing. Issues are toasted joined by ", ". A valid edit with an id sends the payload; only a successful answer toasts "Supplier updated successfully!" and returns to /suppliers; a valid edit without an id sends nothing, toasts nothing and stays. A valid add calls onSubmit, and a throw from it toasts "Failed to save supplier" |
| ManagerForm.Payload | src/sections/managers/ManagerForm.tsx:104-115 | the update carries the manager and user ids, the position and department, and the user's name, e-mail and gender, with an empty image URL |
| ManagerForm.PayloadRoundTrip | src/sections/managers/ManagerForm.tsx:104-115 | the form can be rebuilt from the payload, so no edited field is lost. The image URL sent is the same whatever the form holds, so a stored image is overwritten with "" |
| ManagerForm.ManagerFormState.constructor | src/sections/managers/ManagerForm.tsx:24-37 | the form starts blank with gender "male" and department 0, with no departments, no user id, and loading |
| ManagerForm.ManagerFormState.LoadDepartments | src/sections/managers/ManagerForm.tsx:40-53 | an answer replaces the list, and undefined reads as none. A throw keeps the list and sets "Failed to load departments". Loading ends either way |
| ManagerForm.ManagerFormState.LoadManager | src/sections/managers/ManagerForm.tsx:56-84 | a fetch happens exactly when editing or viewing with an id. A found manager fills the form (gender normalised) and the user id. Nothing is toasted, because the wrapper answers undefined on failure. Loading ends in every case |
| ManagerForm.ManagerFormState.HandleChange | src/sections/managers/ManagerForm.tsx:91-94 | in view mode the form is unchanged; otherwise the change is applied |
| ManagerForm.ManagerFormState.Submit | src/sections/managers/ManagerForm.tsx:96-131 | an update is sent only for a form the edit schema accepts, and so only with a department of at least 1. View mode does nothing. Issues are toasted joined by ", ". A valid edit with an id sends the payload; a truthy answer toasts "Manager updated successfully!" and returns to /users/managers; a valid edit without an id sends nothing, toasts nothing and stays. A valid add hands the data to onSubmit when there is one |
| EditEmployee.Payload | src/sections/employees/EditEmployeeForm.tsx:104-115 | the update carries the employee and user ids, the department and position, and the user's name, e-mail and gender |
| EditEmployee.PayloadRoundTrip | src/sections/employees/EditEmployeeForm.tsx:104-115 | the form can be rebuilt from the payload: the update loses no field |
| EditEmployee.EmployeeFormState.constructor | src/sections/employees/EditEmployeeForm.tsx:26-38 | the form starts blank with gender "male" and department 0, with no departments, no user id, and loading |
| EditEmployee.EmployeeFormState.LoadDepartments | src/sections/employees/EditEmployeeForm.tsx:41-54 | an answer replaces the list, and undefined reads as none. A throw keeps the list and sets "Failed to load departments". Loading ends either way |
| EditEmployee.EmployeeFormState.LoadEmployee | src/sections/employees/EditEmployeeForm.tsx:57-82 | a fetch happens exactly when editing or viewing with an id. A found employee fills the form and user id. A throw toasts "Failed to load employee details". Unlike the manager form, this load never changes the loading flag |
| EditEmployee.EmployeeFormState.HandleChange | src/sections/employees/EditEmployeeForm.tsx:90-93 | in view mode the form is unchanged; otherwise the change is applied |
| EditEmployee.EmployeeFormState.Submit | src/sections/employees/EditEmployeeForm.tsx:95-128 | an update is sent only for a form the edit schema accepts, and so only with a department between 1 and 100. View mode does nothing. Issues are toasted joined by ", ". A valid edit with an id sends the payload; only an answer with success toasts "Employee updated successfully!" and returns to /users/employees; a valid edit without an id sends nothing, toasts nothing and stays. Add mode sends nothing |
| UserForms.NormaliseGender | src/sections/managers/ManagerForm.tsx:65-67 | the loaded gender is always one of male/female/other. An accepted gender is kept, and anything else (or nothing) becomes "male" |
| UserForms.NormaliseGenderIdempotent | src/sections/employees/EditEmployeeForm.tsx:66-68 | normalising twice is normalising once. Any result other than "male" is exactly the gender the server sent |
| UserForms.FromLoadedPerson | src/sections/managers/ManagerForm.tsx:62-70 | strings missing from the server load as "" and a missing department as 0 (`??`, which keeps ""). The gender is normalised |
| UserForms.MissingDepartmentLoadsAsBlank | src/sections/employees/EditEmployeeForm.tsx:70 | a record without a department loads the same department as the blank form, 0 |
| UserForms.ApplyPersonChange | src/sections/managers/ManagerForm.tsx:91-94 | each change sets exactly its own field |
| UserForms.PersonChangesCommute | src/sections/employees/EditEmployeeForm.tsx:90-93 | changes to different fields can be applied in either order. Of two changes to the same field, the later one wins |
| UserForms.DepartmentOptions | src/sections/employees/EditEmployeeForm.tsx:85-88 | one option per department, in order, carrying its id and name; the manager form builds its select the same way (`src/sections/managers/ManagerForm.tsx:86-89`) |
| AuthSchemas.LoginValidIff | src/validation/auth.ts:4-13 | a login passes exactly when the e-mail is non-empty and well formed and the password has at least 6 characters |
| AuthSchemas.ForgotPasswordOnlyEmail | src/validation/auth.ts:15-20 | a forgot-password request passes exactly when the e-mail is non-empty and well formed |
| AuthSchemas.ResetPasswordValidIff | src/validation/auth.ts:22-31 | a reset passes exactly when the e-mail is non-empty and well formed and the new password has at least 6 characters |
| AuthSchemas.ResetWithOtpAnyOtp | src/validation/auth.ts:33-41 | the code-based reset checks only the new password's length. Any code passes, the empty one included |
| ZodRules.PasswordMinSubsumed | src/validation/auth.ts:9-12 | the two minimum-length checks on a password together demand exactly 6 characters, so the first never decides |
| SupplierSchemas.SupplierValidIff | src/validation/supplier.ts:3-16 | the conditions for a new supplier, field by field: name and address non-empty, e-mail well formed, password of at least 6 characters, gender and meal type from their lists, and a phone of 10 to 15 characters from `[0-9+\-\s()]` |
| SupplierSchemas.CreatePhoneNeedsNoDigit | src/validation/supplier.ts:10-15 | the creation phone check counts characters, not digits: ten parentheses pass |
| SupplierSchemas.EditPhoneAnyCharacters | src/validation/supplier.ts:26 | the edit schema checks only the phone's length: ten letters fail the creation check but not the edit check |
| SupplierSchemas.EditSupplierValidIff | src/validation/supplier.ts:19-31 | an edit passes exactly with a name of 2 to 100 characters, a non-empty well-formed e-mail, a listed meal type and gender, a phone of 10 to 15 characters and an address of 5 to 200 |
| ManagerSchemas.ManagerValidIff | src/validation/manager.ts:3-19 | the conditions for a new manager: name and position of 2 to 100 characters, a non-empty well-formed e-mail, a listed gender, role "management", a department of at least 1, and a password of at least 6 characters |
| ManagerSchemas.DefaultDepartmentRejected | src/validation/manager.ts:29 | a form still holding the default department 0 never passes the edit check |
| ManagerSchemas.EditIgnoresRoleAndPassword | src/validation/manager.ts:21-32 | the edit check is the creation check with role and password taken as satisfied |
| EmployeeSchemas.EmployeeValidIff | src/validation/employee.ts:3-18 | the conditions for a new employee: name and position of 2 to 100 characters, a non-empty well-formed e-mail, a department from 1 to 100, a listed gender, and a password of at least 6 characters |
| EmployeeSchemas.DepartmentBounds | src/validation/employee.ts:28 | departments 0 (the form's default) and 101 are both refused by the edit check |
| EmployeeSchemas.EditIsCreateWithoutPassword | src/validation/employee.ts:21-32 | the creation check is exactly the edit check plus the password rule |
| ProfileSchema.PhoneOkIff | src/validation/profile.ts:16-20 | a non-empty phone passes exactly when it is 10 to 15 ASCII digits, or a '+' followed by 10 to 15 ASCII digits |
| ProfileSchema.PhoneExamples | src/validation/profile.ts:16-20 | numbers with and without a country code pass, a '+' with nine digits fails, and an absent or empty phone passes |
| ProfileSchema.NameExamples | src/validation/profile.ts:4-7 | only letters and whitespace are allowed, so "O'Neil" is refused, while a name of two spaces is accepted |
| ProfileSchema.ImageUrlOkIff | src/validation/profile.ts:26-31 | a present image URL passes exactly when it is a URL that starts with "https://" |
| ProfileSchema.OptionalFieldsMayBeAbsent | src/validation/profile.ts:3-32 | without phone, address and image URL, a profile passes on name, gender and e-mail alone |
| FoodItemSchema.FoodItemValidIff | src/validation/foodItems.ts:3-11 | a food item passes exactly with a name, category and supplier id that are non-empty and a price of at least 0. Description, image URL and availability never decide |
| FoodItemSchema.ZeroPriceAccepted | src/validation/foodItems.ts:7 | a price of 0 passes and a negative one fails, despite the "positive number" message |
| FeedbackSchema.FeedbackValidIff | src/validation/feedback.ts:3-8 | a complaint passes exactly with non-empty user id, supplier id and comment, and a date no earlier than the epoch |
| FeedbackSchema.FutureDatesAccepted | src/validation/feedback.ts:7 | any later date passes, including dates in the future; a date before the epoch fails |
| DepartmentSchema.TotalEmployeesBounds | src/validation/departments.ts:3-6 | a named department passes exactly with a non-negative employee count, a fractional one included. An unnamed department never passes |

## Left out

- Network I/O, React rendering, effect ordering and async timing. Every API answer is a method input,
  and effects run in the order the methods are called.
- The `src/api` wrappers' own toasts. The wrappers that catch their own failures and answer
  `undefined` are those of `managerApis.ts`, `supplierApis.ts`, `complainApis.ts`, `orderApi.ts`
  and `orderSummaryApi.ts`, and `createFoodItem`, `updateFoodItem` and `deleteFoodItem` in
  `foodItemsApi.ts`; for them the model receives only the `undefined` (an `Option`). The others
  (`authApis.ts` rethrows; `departmentApis.ts`, `normalEmployeeApis.ts` and the remaining
  `foodItemsApi.ts` functions have no `catch`) let the failure reach the caller, and the model takes
  their outcome as a `Fetch`. Because of the catching wrappers, several `catch` branches in the
  forms and tables can only be reached by a throw inside the component itself. These messages are
  not produced:
  - "Failed to fetch orders" (`OrdersTable.tsx`);
  - "Failed to fetch feedbacks" (`complaintsTable.tsx`);
  - "Failed to load dashboard metrics" (`EcommerceMetrics.tsx`);
  - "Failed to load manager details" (`ManagerForm.tsx`);
  - "Failed to load suppliers" (`complaintsForm.tsx`, whose `getAllSuppliers` answers `undefined`);
  - "Failed to submit complaint" and the server message before it (`complaintsForm.tsx`, whose
    `createComplain` answers `undefined`).
- The order lifecycle and pricing (totals, to-be-paid amounts, transition enforcement) are computed
  by the backend, which is not part of this model. The front end only posts the status payload.
- NewOrder.NewOrderForm.Submit: the success toast follows every create, because the create wrapper
  answers `undefined` instead of throwing. The wrapper's own error toast is not modelled.
- NewOrder.NewOrderForm.Load: the departments list that the form fetches but never uses is not kept; only whether that fetch failed is an input.
- NewOrder.SupplierOptionsSpec: states no duplicates, exact membership and labels. The order of the
  options is that of `Common.Distinct`, whose first-occurrence order is proved separately (`Common.DistinctFirstOccurrenceOrder`).
- `Number(...)` and `parseInt`/`parseFloat` on free text: a value that does not parse is an input
  (`None`). NaN itself is not modelled.
- ZodRules.LengthBetween, ZodRules.PasswordOk and the schemas built on them (`AuthSchemas`,
  `SupplierSchemas`, `ManagerSchemas`, `EmployeeSchemas`, `ProfileSchema`, `FoodItemSchema`,
  `FeedbackSchema`, `DepartmentSchema`): zod's `min` and `max` count UTF-16 code units, while the
  model counts characters. A text outside the Basic Multilingual Plane (an emoji) is one character
  here and two code units in the browser, so such a text can pass a length rule here and fail it
  there.
- EditOrder.EditOrderForm.Submit: the `onUpdate` call is counted, not run. What the orders table's
  callback does (it throws "Function not implemented.", which the form swallows) is not modelled:
  the popup stays open and the list is not fetched again.
- `toLowerCase` is ASCII only (`EditSupplier.AsciiLower`). Unicode case mapping is not modelled.
- `toLocaleString`, `toLocaleDateString`, currency and date formatting: display only.
- The `Date` object: "now" is a parameter, and a date is milliseconds since the epoch.
- `EditfoodItemSchema` is imported by `EditFoodItemForm.tsx` but not defined in
  `src/validation/foodItems.ts`, so its constraints are unknown. Its outcome is an input to
  `EditFoodItem.FoodItemFormState.Submit`: it passes, fails with the schema's messages, or throws
  something else (as calling `parse` on an undefined import would), which shows "Failed to save
  food item. Please try again.". That toast has a second route: a rejecting `onSubmit` in add mode.
  The update wrapper in edit mode never throws.
- The manager and employee forms ignore non-schema errors in submit silently. The model shows no toast there.
- Image uploads (`FileInput`, `utils/cloudinary.ts`): only the success, error and start callbacks
  that the forms receive are modelled.
- The global loader store (`useLoaderStore`) is a `Loader` object with one flag. The
  `window.location` assignment on a 401 is the `redirectHome` flag of the rejection outcome.
- The `setTimeout` that resets the complaint form's "submitted" flag after three seconds is not
  modelled. Neither is the toast library's timing.
- The creation forms, the display-only tables and the page wrappers only repeat schemas and
  pagination that are modelled here.
- The complaint form and its schema do not check that a complaint's date is today or earlier, so
  the model does not either. `FeedbackSchema.FutureDatesAccepted` states that future dates pass.

## Findings

| source | as written | input that shows it | evidently intended | confidence | as-written member | corrected member |
|---|---|---|---|---|---|---|
| middleware.ts:9-31 | "/" is a protected prefix, so every path is protected, and a request without a token to a sign-in page is redirected to sign-in | no token, path "/signin" | the sign-in, sign-up and password pages stay reachable without a token | not executed | Middleware.SigninRedirectsToItself | Middleware.IntendedAuthPagesReachable |
| src/components/user-profile/EditProfileForm.tsx:27-28 | the form starts phone and address from `roleDetails`, but the diff (lines 141-142) compares them with the top-level `phone` (or `phoneNumber`) and `address`, so an unedited supplier form differs from the loaded profile | a supplier whose phone and address are only in `roleDetails`, submitted unedited | an unedited form sends nothing and shows "No changes were made." | not executed | EditProfile.UneditedSupplierFormIsSent | EditProfile.IntendedNoChangesIff |
| src/sections/foodItems/EditFoodItemForm.tsx:60 | `available \|\| true` is always true, so an unavailable item loads as available | an item with `available: false` | the loaded form shows the server's availability | not executed | EditFoodItem.UnavailableItemLoadsAsAvailable | EditFoodItem.LoadKeepsServerValues |
