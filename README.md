# Kerala classifieds hub: the app-side rules, in Dafny

The marketplace keeps all its data in a hosted database with authentication and
object storage. The app adds a small set of rules of its own, and this project
models and proves them:

- the **listing query** built on the browse page:
  - approved ads only
  - an optional case-insensitive text match on title or description
  - optional exact category and location filters
  - one sort key
- what the page **displays** from the backend's answer
- the **favorite toggle**, a lookup followed by a delete or an insert on the `favorites` table
- the **query-string parameters** the search button writes
- the **price label** and the dashboard's **status badge**
- the **post-ad form**:
  - its schema
  - the image list, capped at five
  - the sequential image upload that stops at the first failure
  - the record inserted on submit
- the dashboard's **own-ads query** and **delete by id** for ads and favorites
- the **sign-in and sign-up schemas**, including the password-confirmation refinement
- the auth modal's rule of **resetting the form only on success**

## How it is built

| file | module | models |
|---|---|---|
| `schema.dfy` | `Schema` | the row shapes of the five tables; the signed-in user |
| `query.dfy` | `Query` | a query on `ads` as conditions and an ordering. `Answers(q, table, rows)` holds when the rows are exactly the selected ones (as a multiset) in an order the ordering allows. `Evaluate` is a reference backend (filter, then insertion sort) and shows every query has an answer. |
| `tables.dfy` | `Tables` | the `ads` and `favorites` tables as classes over a `seq` of rows, with their delete-by-id, insert and `.single()` lookup |
| `listings.dfy` | `Listings` | `fetchAds`, `toggleFavorite`, `updateSearch`, `formatPrice` |
| `postad.dfy` | `PostAd` | `adSchema`, `handleImageUpload`, `removeImage`, `uploadImages`, the insert record, `onSubmit` |
| `dashboard.dfy` | `Dashboard` | `getStatusBadge`, the price label, `fetchMyAds`, `deleteAd`, `removeFavorite` |
| `auth.dfy` | `Auth` | `signInSchema`, `signUpSchema`, the modal's success-only reset |
| `forms.dfy`, `seqs.dfy`, `wrappers.dfy` | `Forms`, `Seqs`, `Wrappers` | validation issues, order-preserving filtering, `Option`/`Result` |

Some things outside the app are passed in as parameters:

- The backend is a function from a query to a response.
- Object storage is a function from a file to an upload result.
- `parseFloat` is a function from text to an optional integer. `None` stands for NaN, which the client library sends as null.
- `toLocaleString` is a function from a number to text.
- Email validity is a predicate.
- Generated row ids, the clock and backend write errors are plain arguments.

Timestamps are integer milliseconds. Null prices sort as the database sorts
them by default: after every number in ascending order, before every number in
descending order.

## Model

| member | source | states |
|---|---|---|
| `Listings.ListingQuery` | src/pages/Listings.tsx:57-94 | The query's first condition is `status = approved`. An ad is selected exactly when it is approved, matches the search text in its title or description (ignoring case), and has the chosen category and location. Each of the last three conditions applies only when its value is non-empty. An empty search adds no text condition. The ordering is the one the sort key picks. |
| `Listings.BuildListingQuery` | src/pages/Listings.tsx:57-94 | Building the query by successive reassignment gives exactly the query above. |
| `Listings.ListingAnswer` | src/pages/Listings.tsx:65-94 | Any correct answer holds exactly the table's matching ads, so never an ad with another status. `newest` gives `created_at` non-increasing, `oldest` non-decreasing. `price_low` gives price non-decreasing, `price_high` non-increasing. |
| `Listings.PriceLowOrder` | src/pages/Listings.tsx:88-90 | Under `price_low`, prices are non-decreasing among priced ads, and every unpriced ad comes after every priced one. |
| `Listings.PriceHighOrder` | src/pages/Listings.tsx:91-93 | Under `price_high`, prices are non-increasing among priced ads, and every unpriced ad comes before every priced one. |
| `Listings.UnknownSortKeyUnordered` | src/pages/Listings.tsx:81-94 | With any search text, category and location, a sort key other than the four adds no ordering: any arrangement of the selected rows is an answer. |
| `Listings.ListingsPage.FetchAds` | src/pages/Listings.tsx:96-106 | On a backend error the displayed ads are unchanged. On success they become the returned rows, or empty when none come back. |
| `Query.Evaluate` | src/pages/Listings.tsx:96 | The reference backend (select, then sort) always returns a correct answer, so every query has one. |
| `Query.AnswerMembers` | src/pages/Listings.tsx:96 | A row is in an answer if and only if it is in the table and the query selects it. |
| `Query.SortedPermutationsTie` | src/pages/Listings.tsx:81-96 | Two sequences sorted by the same ordering and holding the same rows have equal length, and at every index their rows tie on the sort column. |
| `Query.AnswersArePermutations` | src/pages/Listings.tsx:96 | Two answers to the same query contain the same rows. At every index their rows tie on the sort column, so they differ only in the order of tied rows. |
| `Tables.FavoritesTable.SelectSingle` | src/pages/Listings.tsx:122-127 | The lookup gives a row if and only if exactly one favorite matches the (user, ad) pair, and that row is the match. |
| `Listings.ToggleFavorite` | src/pages/Listings.tsx:111-149 | With no user: outcome "sign in required" and the table unchanged. On a write error the table is also unchanged. Otherwise the table becomes `ToggleRows` of the old one: "removed" exactly when one row matched, "added" otherwise. Row ids stay unique. |
| `Listings.ToggleEffect` | src/pages/Listings.tsx:121-148 | With exactly one match, that row alone is removed and the rest keep their order. Otherwise exactly one new (user, ad) row is appended. |
| `Listings.ToggleTwice` | src/pages/Listings.tsx:121-148 | Starting with no favorite for the pair, two toggles restore the original table. |
| `Listings.ToggleKeepsAtMostOne` | src/pages/Listings.tsx:121-148 | Sequential toggles keep "at most one favorite per (user, ad) pair". |
| `Listings.ToggleWithDuplicatesAdds` | src/pages/Listings.tsx:122-129 | With two or more matches `.single()` returns nothing, so the toggle adds another row instead of removing one. |
| `Listings.UpdateSearch` | src/pages/Listings.tsx:151-156 | `q`, `category` and `location` are set only when non-empty. Reading each back as the page does at start-up gives the original value. |
| `Listings.FormatPrice` | src/pages/Listings.tsx:160-164 | A null or zero price gives "Price on request". Any other price gives the rupee amount, with " (Negotiable)" added exactly for the negotiable type. |
| `Listings.FormatPriceOnRequestIff` | src/pages/Listings.tsx:161 | The label is "Price on request" if and only if the price is null or zero. |
| `PostAd.ParseAdForm` | src/pages/PostAd.tsx:20-29 | The form parses if and only if all of these hold: title ≥ 10 characters; description ≥ 20; price type one of fixed, negotiable, on_request; category and location non-empty; contact email undefined, blank or valid. A parse keeps every field. A failure lists at least one issue, including the description issue when the description is short. |
| `PostAd.DescriptionBoundary` | src/pages/PostAd.tsx:22 | Under the intended schema, a 19-character description is rejected and a 20-character one is accepted. |
| `PostAd.DescriptionBoundaryAsWritten` | src/pages/PostAd.tsx:22-28 | Under the schema as written, the sample form with its blank default email fails whatever its description. With the email undefined, 19 characters fail and 20 pass. |
| `PostAd.ParseAdFormAsWritten` | src/pages/PostAd.tsx:28 | As written, the schema also rejects a contact email that is present but not a valid email, and that includes the blank one. |
| `PostAd.BlankEmailRejectedAsWritten` | src/pages/PostAd.tsx:28 | A form valid in every other field, with the blank contact email the form starts with, fails the schema as written. The intended schema accepts it. |
| `PostAd.BlankEmailFallsBack` | src/pages/PostAd.tsx:144 | Under the intended schema, a blank contact email passes and the record's `contact_email` is the user's email. |
| `PostAd.ImagePicker.HandleImageUpload` | src/pages/PostAd.tsx:82-93 | The files are rejected, with the list unchanged, exactly when the total would exceed 5. Otherwise they are appended after the existing ones, in order. A list of at most 5 stays at most 5. |
| `PostAd.ImagePicker.RemoveImage` | src/pages/PostAd.tsx:95-97 | Exactly the element at the index is dropped and the rest keep their order. An out-of-range index changes nothing. |
| `PostAd.WithoutIndexEffect` | src/pages/PostAd.tsx:96 | The index filter equals `s[..i] + s[i+1..]` for an index in range and `s` otherwise. |
| `PostAd.UploadSequence` | src/pages/PostAd.tsx:99-120 | The upload succeeds exactly when every file stores. It then gives one URL per image, the image's own, in image order. Otherwise the error is that of the first file that failed. |
| `PostAd.UploadImages` | src/pages/PostAd.tsx:99-120 | The loop returns exactly `UploadSequence` of the images. It stops at the first failure. |
| `PostAd.UploadFailureStops` | src/pages/PostAd.tsx:110 | Once a prefix of the uploads fails, the whole upload fails with that error. |
| `PostAd.NewAdRecord` | src/pages/PostAd.tsx:134-147 | The record has status pending, the current user's id, and the uploaded URLs as images. `expires_at` is now + 30·24·60·60·1000. An absent or blank price gives null. The contact email falls back to the user's email. The remaining fields are copied. |
| `PostAd.OnSubmit` | src/pages/PostAd.tsx:122-166 | With no user nothing happens. An upload or insert failure inserts nothing and reports the error. Otherwise the record is built from the uploaded URLs, which is `[]` when there are no images. |
| `PostAd.BicycleExample` | src/pages/PostAd.tsx:129-146 | Under the intended schema, a valid "Selling my old bicycle" form with price "1500" and no images gives a pending record with no images, price 1500, expiring 2592000000 ms after now. The blank default phone is kept, and the contact email is the user's. |
| `Dashboard.StatusBadge` | src/pages/Dashboard.tsx:122-131 | The lookup finds no badge exactly for an `Object.prototype` member name, and otherwise one of the four badges. `StatusBadges`, `StatusBadgeFallback` and `StatusBadgeInjective` give which badge each text gets. |
| `Dashboard.StatusBadges` | src/pages/Dashboard.tsx:123-128 | pending → Pending/secondary, approved → Active/default, rejected → Rejected/destructive, expired → Expired/outline. |
| `Dashboard.StatusBadgeFallback` | src/pages/Dashboard.tsx:123-130 | For text that names no status: the lookup finds no badge exactly when the text is an `Object.prototype` member name, such as "toString" or "__proto__". Any other such text gets the pending badge. |
| `Dashboard.StatusBadgeInjective` | src/pages/Dashboard.tsx:122-131 | Distinct statuses get distinct badges. |
| `Dashboard.DashboardPrice` | src/pages/Dashboard.tsx:197 | A truthy price shows as the rupee amount. A null or zero price shows "Price on request". |
| `Dashboard.DashboardPriceAgrees` | src/pages/Dashboard.tsx:262 | The dashboard's label equals the listing page's for every non-negotiable price type. |
| `Dashboard.MyAdsQuery` | src/pages/Dashboard.tsx:34-42 | The query selects exactly the ads whose `user_id` is the user's and orders them by `created_at` descending. |
| `Dashboard.MyAdsAnswer` | src/pages/Dashboard.tsx:41-42 | Any correct answer holds exactly the user's ads, with `created_at` non-increasing. |
| `Dashboard.DashboardPage.FetchMyAds` | src/pages/Dashboard.tsx:31-54 | With no user, or on a backend error, the list is unchanged. On success it becomes the returned rows, or empty. |
| `Dashboard.DeleteAd` | src/pages/Dashboard.tsx:82-100 | Unless the backend errors, only the ad row with that id is removed, and every other row is kept in order. |
| `Dashboard.RemoveFavorite` | src/pages/Dashboard.tsx:102-120 | Unless the backend errors, only the favorite row with that id is removed, and every other row is kept in order. |
| `Tables.WithoutKeyEffect` | src/pages/Dashboard.tsx:83-86 | Delete-by-id keeps exactly the rows with other ids. With unique ids and the id present, it removes exactly one row, at its position. An absent id changes nothing. |
| `Auth.SignInIssues` | src/components/Auth/AuthModal.tsx:13-16 | Sign-in is valid if and only if the email is valid and the password has at least 6 characters. |
| `Auth.SignUpIssues` | src/components/Auth/AuthModal.tsx:18-26 | Sign-up is valid if and only if: the email is valid; the password has ≥ 6 characters; the full name has ≥ 2; the two passwords agree. A mismatch reports "Passwords don't match" on `confirmPassword`. With agreeing passwords, no issue is on that path. |
| `Auth.SignUpImpliesSignIn` | src/components/Auth/AuthModal.tsx:14-20 | A valid sign-up's email and password pass the sign-in schema. |
| `Auth.AfterSubmit` | src/components/Auth/AuthModal.tsx:62-76 | After a reply the modal is either unchanged or closed with the form reset to its defaults. `AfterSubmitProperties` says which reply does which. |
| `Auth.AfterSubmitProperties` | src/components/Auth/AuthModal.tsx:57-77 | The modal changes only on a reply with data and no error. That reply closes it and resets the form. Any other reply leaves what the user typed. |
| `Schema.ParsePriceType` | src/lib/supabase.ts:106 | Only "fixed", "negotiable" and "on_request" are price types, and each reads back to its own name. |

## Findings

| source | as written | input that shows it | evidently intended | confidence | as-written member | corrected member |
|---|---|---|---|---|---|---|
| src/pages/PostAd.tsx:28 | `contactEmail: z.string().email().optional()`. `optional()` admits only an undefined value. The form's default is `''` (src/pages/PostAd.tsx:50), and the empty string fails `.email()`. | An otherwise valid ad whose "Contact Email (Optional)" field is left blank. | A blank contact email is accepted. The insert then falls back to the user's email, as `values.contactEmail \|\| user.email` (src/pages/PostAd.tsx:144) expects. | not executed; the empty-string behaviour of `email()` comes from the validation library | `PostAd.ParseAdFormAsWritten` (`PostAd.BlankEmailRejectedAsWritten`) | `PostAd.ParseAdForm` (`PostAd.BlankEmailFallsBack`) |

## Left out

- The backend client, network calls, auth sessions and the startup check for missing environment variables. The backend is a function from a query to a response, and auth replies are values.
- Object storage upload and `getPublicUrl`: one abstract function from a file to a URL or an error. Files already uploaded before a failure are not tracked, because nothing removes them. The function gives two equal files the same URL and the same success or failure. In the source each upload has its own `Date.now()` path (src/pages/PostAd.tsx:104) and can fail on its own; no proved property relies on this.
- Upload file names: they are built from the extension and `Date.now()` and carry no stated contract.
- React state, rendering, toasts, navigation and the `loading`/`uploading` flags.
- The static home-page components.
- `fetchCategories` and `fetchLocations`: read-only lookups that fill dropdowns.
- `fetchFavorites` and the joined `categories`, `locations` and `profiles` columns: these only feed display, and rows are not joined.
- The refetches after a change. After `deleteAd` the source runs `fetchMyAds` again, which is `FetchMyAds`; the two methods are not chained. After `removeFavorite` it runs `fetchFavorites` (src/pages/Dashboard.tsx:118), which is not modelled. `updateSearch` writes the URL parameters and then calls `fetchAds` (src/pages/Listings.tsx:157). `UpdateSearch` models the parameters only; the fetch is `FetchAds`, and the two are not chained.
- `formatDate`: clock, floating point and locale.
- `toLocaleString` and `parseFloat`: passed in as functions. Prices are integers.
- The email format check: a predicate parameter. The validation library's default messages, for an invalid enum value and an invalid email, are shortened.
- `ilike`: case folding covers ASCII letters only. `%`, `_` and `,` in the search text are not interpreted, though the source interpolates the text raw into the filter.
- Schema lengths are counted in characters. The source counts UTF-16 code units.
- Dashboard.StatusBadge: the inherited member that an `Object.prototype` name finds is modelled as `None`. The badge the page then renders, with no label and the component's default variant, is not modelled.
- Concurrency: the stale-response race between overlapping fetches, and the race between two toggles.
- Listings.ToggleFavorite: "no lookup without a user" is stated as "nothing changes and the outcome is sign-in required", because a model of the lookup as a value-returning call cannot observe whether it was made. A failed lookup is not modelled separately. In the source it also yields no row and leads to an insert.
- Listings.ToggleFavorite: the new row's id and `created_at` are the database's defaults. They are passed in, and the id is required to be unused.
- PostAd.OnSubmit: it ends with the record sent to the insert. The columns the database fills in (id, timestamps, featured flag, view count) are not modelled.
- The `priceRange` state on the listing page is never used by the source and is not modelled.
