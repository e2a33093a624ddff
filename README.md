# Productivity template: page metadata, header navigation and error handling

This project models the logic core of a Next.js application template in Dafny,
and proves what that logic promises:

- **Page metadata** (`metadata.dfy`). `createMetadata` merges a page's own
  title, description, keywords, authors, Open Graph, Twitter and robots
  settings with the site configuration. It distinguishes JavaScript's
  nullish coalescing (`??`), where only a missing value falls back, from
  logical-or, where an empty string falls back too. Both operators are modelled in `fallback.dfy`.
- **Header navigation** (`header_nav.dfy`, `nav_samples.dfy`). A configuration
  of top-level links and dropdowns becomes a list of entries. Each dropdown
  becomes a panel with a container kind, its class list and its rendered
  sections. A dropdown without `content` makes the render fail. The two
  configurations the application ships are checked against the renderer.
- **Error utilities** (`error_utils.dfy`). These are the `AppError` class and
  the two redirects to `/error`. A redirect builds its query with
  `URLSearchParams.set`, one call per defined entry.
- **Error boundary** (`error_boundary.dfy`). The boundary's state machine
  (catch, retry) and its render decision: children, fallback or generated
  page. The generated page has a title, a message and up to three actions.
  The `useErrorHandler` hook hands an error to the boundary.

Typed unions such as layout, width, section type and gradient are strings in
the model. That keeps the renderers' default branches reachable.
`NavSamples` proves that the shipped configurations stay inside the declared
unions. In the model, a navigation item's `label` is called `text`, because
`label` is a Dafny keyword.

## Model

| member | source | states |
|---|---|---|
| `Fallback.OrText` | src/utils/metadata.ts:86-90 | logical-or on an optional string: the result is the default or a non-empty given value; a non-empty given value wins, and a non-empty default gives a non-empty result |
| `Fallback.OrList` | src/utils/metadata.ts:72-73 | logical-or on an optional array: any given array, even an empty one, wins; only a missing one takes the default |
| `Fallback.Nullish` | src/utils/metadata.ts:77-81 | nullish coalescing: a given value wins, including `false`; only a missing one takes the default |
| `Fallback.NullishVersusOr` | src/utils/metadata.ts:77-90 | nullish coalescing keeps an explicit `false` and an explicit empty string, while logical-or replaces the empty string with a non-empty default |
| `Fallback.OrListIsNullish` | src/utils/metadata.ts:72-73 | on arrays logical-or and nullish coalescing agree, so an empty list is kept |
| `Metadata.AppUrl` | src/config/site.ts:1 | the application URL is never empty: a non-empty environment value is taken as it is, and a missing or empty one gives `http://localhost:3000` |
| `Metadata.Site` | src/config/site.ts:3-32 | the one application URL is the site URL, the Open Graph URL and the metadata base; the site name and description are repeated in the Open Graph and Twitter records |
| `Metadata.CreateMetadata` | src/utils/metadata.ts:64-101 | every title of the result and its Open Graph URL and metadata base are non-empty; the result's keywords and authors start with the site's lists; the Open Graph site name is the application name |
| `Metadata.TitleIsSuffixed` | src/utils/metadata.ts:65-68 | the title is the page title followed by a bar separator and the site name `My App` |
| `Metadata.KeywordsAndAuthorsConcatenate` | src/utils/metadata.ts:72-73 | keywords and authors are the site's list followed by the page's, in order; without page entries they are the site's list |
| `Metadata.RobotsDefaultToTrue` | src/utils/metadata.ts:76-83 | each of the four robots flags is false exactly when the page gives an explicit `false` for it |
| `Metadata.OpenGraphTextFallsBack` | src/utils/metadata.ts:84-87 | the Open Graph title falls back to the full title and the description to the page description, when missing or empty; the title is never empty |
| `Metadata.OpenGraphUrlAndType` | src/utils/metadata.ts:84-90 | a given non-empty URL or type is kept; a missing or empty URL becomes the site URL and a missing or empty type becomes `website`; the site name and locale come from the site |
| `Metadata.ImagesReplaceDefaults` | src/utils/metadata.ts:89-96 | a given image list, even an empty one, replaces the site's images; only a missing list takes them |
| `Metadata.TwitterFallsBackLikeOpenGraph` | src/utils/metadata.ts:92-98 | a given non-empty card, title or description is kept; a missing or empty card becomes `summary_large_image`, title the full title and description the page description, whatever Open Graph was given; the same page input gives the same Twitter and Open Graph title and description |
| `Metadata.PassThroughFields` | src/utils/metadata.ts:69-75 | description, application name, creator, publisher, icons and metadata base are taken over unchanged |
| `Metadata.ExplicitFalseKeptEmptyTitleReplaced` | src/utils/metadata.ts:77-86 | an explicit `false` robots flag survives, while an explicit empty Open Graph title is replaced by the full title |
| `HeaderNav.WidthClass` | src/components/navigation/header/HeaderNav.tsx:69-77 | the default width class is returned exactly for widths outside sm, md, lg and xl |
| `HeaderNav.WidthClassesDistinct` | src/components/navigation/header/HeaderNav.tsx:69-77 | the four known widths give four different classes |
| `HeaderNav.GridClass` | src/components/navigation/header/HeaderNav.tsx:79-90 | empty outside a grid; `grid-cols-n` for n from 1 to 4; `grid-cols-2` for any other count |
| `HeaderNav.GradientClass` | src/components/navigation/header/HeaderNav.tsx:92-99 | the muted class is returned exactly when the gradient is neither primary nor secondary |
| `HeaderNav.GradientClassesDistinct` | src/components/navigation/header/HeaderNav.tsx:92-99 | the three declared gradients (muted, primary, secondary) give three different classes |
| `HeaderNav.DropdownGridClass` | src/components/navigation/header/HeaderNav.tsx:135-137 | a dropdown's grid class is non-empty exactly for a grid layout with a non-zero column count |
| `HeaderNav.GridWithoutColumnsHasNoGridClass` | src/components/navigation/header/HeaderNav.tsx:135-159 | a grid without a column count gets the bare class `md:`, not the `grid-cols-2` default |
| `HeaderNav.GridWithColumns` | src/components/navigation/header/HeaderNav.tsx:151-159 | a grid with n columns (1 to 4) gets the classes `grid gap-3 p-4`, its width class and `md:grid-cols-n` |
| `HeaderNav.RenderDropdown` | src/components/navigation/header/HeaderNav.tsx:133-169 | featured and grid layouts get their own container and every other layout is a list; the width class is always present; the panel holds the rendered configured sections, in order |
| `HeaderNav.RenderListItem` | src/components/navigation/header/HeaderNav.tsx:200-254 | a list item becomes a link of the section's kind with the item's label and href, keeping its description in a description list and its icon in an icon list |
| `HeaderNav.RenderList` | src/components/navigation/header/HeaderNav.tsx:197-257 | a list section renders one link per item, in order, keeping each item's label and href |
| `HeaderNav.RenderSections` | src/components/navigation/header/HeaderNav.tsx:143-145 | one rendered section per configured section, in order |
| `HeaderNav.RenderSection` | src/components/navigation/header/HeaderNav.tsx:171-260 | only a featured section yields a card, and at most one; each list kind yields one entry per item |
| `HeaderNav.FeaturedSectionRendering` | src/components/navigation/header/HeaderNav.tsx:171-194 | a featured card appears exactly for a featured section with a featured object and carries its title, description, href and gradient class; a featured section without one renders nothing; a card without a gradient is muted |
| `HeaderNav.ListSectionsKeepItems` | src/components/navigation/header/HeaderNav.tsx:196-257 | the three list kinds render one link per item with its label and href; description lists give described links with the description, icon lists icon links with the icon, plain lists plain links |
| `HeaderNav.UnknownSectionRendersNothing` | src/components/navigation/header/HeaderNav.tsx:259 | a section of any other type renders nothing |
| `HeaderNav.RenderItem` | src/components/navigation/header/HeaderNav.tsx:108-124 | an item renders exactly when it is a link or has content, and the rendered entry keeps its label |
| `HeaderNav.RenderItems` | src/components/navigation/header/HeaderNav.tsx:106-127 | the render succeeds exactly when every item can be drawn, giving one entry per item in order; a failure names an item that cannot be drawn |
| `HeaderNav.RenderNav` | src/components/navigation/header/HeaderNav.tsx:102-131 | a successful render keeps the viewport flag and has one entry per item; a failure names an item that cannot be drawn |
| `HeaderNav.RenderSucceedsIffWellFormed` | src/components/navigation/header/HeaderNav.tsx:102-131 | the navigation renders exactly when every non-link item has content |
| `HeaderNav.TopLevelOneEntryPerItem` | src/components/navigation/header/HeaderNav.tsx:106-123 | links get their href or `#`, and `transition-none` only for an explicit `false`; every other item becomes a dropdown of its content |
| `NavSamples.HeaderSampleRenders` | src/config/header-navigation.ts:5-198 | the shipped header configuration is well-formed, keeps to the declared unions and renders six entries |
| `NavSamples.PageSampleRenders` | src/config/page-navigation.ts:26-313 | the shipped page configuration is well-formed, keeps to the declared unions and renders six entries |
| `NavSamples.PlatformCardIsMuted` | src/config/page-navigation.ts:29-44 | the Platform dropdown is a featured panel whose card is muted, since its featured section sets no gradient |
| `NavSamples.CompanyGridHasFourColumns` | src/config/page-navigation.ts:241-250 | the Company grid uses `md:grid-cols-4` |
| `NavSamples.PricingLinkHasNoTransition` | src/config/page-navigation.ts:230-239 | the Pricing link goes to `/pricing` with its transition turned off |
| `ErrorUtils.AppError.constructor` | src/utils/error.ts:8-14 | a new `AppError` has the name `AppError`, the given message and the given code |
| `ErrorUtils.Stringify` | src/utils/error.ts:23 | `String(value)`: a string stays itself and a boolean becomes `true` or `false` |
| `ErrorUtils.RemoveKey` | src/utils/error.ts:23 | removing a name keeps exactly the pairs with other names, and keeps names distinct |
| `ErrorUtils.ReplaceFirst` | src/utils/error.ts:23 | replacing the first pair of a present name keeps the set of names; the pairs afterwards are the new pair and exactly the old pairs with other names |
| `ErrorUtils.SetParam` | src/utils/error.ts:23 | `URLSearchParams.set`: the pairs afterwards are the new pair and exactly the old pairs with other names; names stay distinct, and a new name is appended at the end |
| `ErrorUtils.SetAll` | src/utils/error.ts:22-24 | the parameters after the loop have distinct names, and a name is present exactly when some entry with it is defined |
| `ErrorUtils.EncodedFromDefinedEntries` | src/utils/error.ts:22-24 | every pair of the reference encoding comes from a defined entry and its `String` value |
| `ErrorUtils.SetAllIsEncoded` | src/utils/error.ts:21-24 | with distinct entry names, the `set` loop gives the defined entries in order, stringified, with undefined ones dropped |
| `ErrorUtils.DefinedParamsAppearOnce` | src/utils/error.ts:22-24 | each defined entry appears exactly once, with its stringified value |
| `ErrorUtils.UndefinedDroppedBooleanStringified` | src/utils/error.ts:22-24 | an undefined value is skipped and a boolean becomes `true` or `false` |
| `ErrorUtils.QueryString` | src/utils/error.ts:25 | the query is empty exactly when there are no pairs, and otherwise starts with the first pair as `name=value` |
| `ErrorUtils.QueryStringSingle` | src/utils/error.ts:25 | one pair serialises as `name=value` |
| `ErrorUtils.QueryStringAppend` | src/utils/error.ts:25 | the query of two non-empty runs of pairs is the first run's query, `&`, then the second's: every pair is written, in order |
| `ErrorUtils.ErrorTarget` | src/utils/error.ts:25 | the target starts with `/error?` and is exactly that when there are no parameters |
| `ErrorUtils.BuildParams` | src/utils/error.ts:21-24 | the loop's parameters are the `set` fold of the entries: distinct names, present exactly for defined entries, equal to the reference encoding when entry names are distinct |
| `ErrorUtils.RedirectToErrorPage` | src/utils/error.ts:20-26 | the server redirect target is `/error?` followed by the query of the built parameters |
| `ErrorUtils.ClientRedirectToErrorPage` | src/utils/error.ts:32-38 | the client redirect target is the same as the server's |
| `ErrorBoundaries.PageActions` | src/components/ui/error-boundary.tsx:58-74 | each action is present exactly when its flag is not an explicit `false`; only the three actions occur, always in the order Try again, Go home, Contact support |
| `ErrorBoundaries.DerivedStateFromError` | src/components/ui/error-boundary.tsx:28-30 | the state after a catch has an error, holds the thrown one, and differs from the initial state |
| `ErrorBoundaries.Title` | src/components/ui/error-boundary.tsx:50-52 | the title is never empty, and in development with an error it has text after the `Error: ` prefix |
| `ErrorBoundaries.Message` | src/components/ui/error-boundary.tsx:54-56 | the message is never empty, and in development a non-empty error message is shown as it is |
| `ErrorBoundaries.Details` | src/components/ui/error-boundary.tsx:83-92 | the stack details appear exactly in development with an error, and show its stack when it has one |
| `ErrorBoundaries.ExpectedView` | src/components/ui/error-boundary.tsx:41-98 | children are rendered exactly when there is no error; a fallback is shown only when it is given and truthy; the generated page carries the page actions, title, message and the development-only stack details |
| `ErrorBoundaries.ErrorBoundary.constructor` | src/components/ui/error-boundary.tsx:23-26 | a fresh boundary has no error |
| `ErrorBoundaries.ErrorBoundary.CatchError` | src/components/ui/error-boundary.tsx:28-30 | catching an error sets `hasError` and stores that error |
| `ErrorBoundaries.ErrorBoundary.HandleRetry` | src/components/ui/error-boundary.tsx:37-39 | a retry returns to no error |
| `ErrorBoundaries.ErrorBoundary.BuildActions` | src/components/ui/error-boundary.tsx:58-74 | the pushes build exactly the page's action list |
| `ErrorBoundaries.ErrorBoundary.Render` | src/components/ui/error-boundary.tsx:41-98 | the render follows the boundary's decision for its current state and props |
| `ErrorBoundaries.ErrorHandler.constructor` | src/components/ui/error-boundary.tsx:105 | the hook starts with no error |
| `ErrorBoundaries.ErrorHandler.HandleError` | src/components/ui/error-boundary.tsx:111-114 | `handleError` stores the error |
| `ErrorBoundaries.ErrorHandler.ResetError` | src/components/ui/error-boundary.tsx:107-109 | `resetError` clears it |
| `ErrorBoundaries.ErrorHandler.RunEffect` | src/components/ui/error-boundary.tsx:116-120 | a stored error reaches the boundary as a caught error; without one the boundary is unchanged |
| `ErrorBoundaries.CatchAndRetry` | src/components/ui/error-boundary.tsx:22-99 | a caught error without a fallback shows the generated page, which offers Try again unless it is switched off; after a retry the children are back |
| `ErrorBoundaries.NoErrorRendersChildren` | src/components/ui/error-boundary.tsx:97 | without an error the boundary renders its children unchanged |
| `ErrorBoundaries.FallbackWins` | src/components/ui/error-boundary.tsx:42-45 | with an error, a truthy fallback wins over the generated page; a missing or falsy one leaves the page |
| `ErrorBoundaries.AllActionsByDefault` | src/components/ui/error-boundary.tsx:58-74 | with no flags set, all three actions appear in order |
| `ErrorBoundaries.TitleRule` | src/components/ui/error-boundary.tsx:50-52 | the title starts with `Error: ` exactly in development with an error present, followed by the error name, or `Component Error` when the name is empty; otherwise it is `Something went wrong` |
| `ErrorBoundaries.MessageRule` | src/components/ui/error-boundary.tsx:54-56 | the message is the error's message, or its default when empty, in development with an error present, and the generic message otherwise |
| `ErrorBoundaries.CatchThenRetry` | src/components/ui/error-boundary.tsx:28-39 | a caught error hides the children, and the state after a retry shows them again |

## Left out

- The development flag (`process.env.NODE_ENV === "development"`) and the environment's `NEXT_PUBLIC_APP_URL` are parameters of the model.
- `new URL(APP_URL)` is left out: `metadataBase` is the URL string, and what happens when parsing fails is not modelled.
- ReplaceFirst, SetParam: for a name already present, the contracts say which pairs remain but not where the new pair stands or that the others keep their order; redirect entries come from `Object.entries`, which never repeats a name, so only the appending case (stated in full) is reached.
- Percent-encoding in `URLSearchParams.toString` is left out: `QueryString` joins `name=value` pairs with `&` as they are.
- The effects of a redirect are left out: `redirect` from `next/navigation` and `window.location.assign` become the returned target string.
- Logging is left out: `logError`, `componentDidCatch` and the `onError` callback only have side effects outside the model.
- JSX markup, icon components and `cn` class merging are left out: a dropdown's classes are the list of arguments passed to `cn`.
- `NavigationMenuContent` is modelled as mounting its content eagerly. A dropdown without `content` therefore makes the whole navigation render fail, whereas the real menu may only fail when that dropdown opens.
- The boundary's `props` are fixed when it is constructed. React can pass new props on a re-render; that is not modelled.
- `withErrorBoundary`, the higher-order wrapper, is left out: it passes props through and adds no logic.
- A thrown value is always an `Error` object in the model. Throwing `null` or `undefined`, which would give `hasError` with no error, is not modelled.
- The mobile menu, header actions, authentication pages, status-page presets other than the three actions used, and validation utilities are not part of this model.
