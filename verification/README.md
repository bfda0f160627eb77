# Portfolio site: verified model of its sequential logic

This project models the four parts of the portfolio web site that hold
logic rather than markup:

- **The skills constellation** (`Skills.tsx`):
  - The shipped skill data: 39 skills in five clusters, the category colours and the 42 explicit links.
  - `generateConnections`: it turns named links into coordinate pairs, coloured by the category of the `from` skill.
  - The `categories` legend memo.
  - The `filteredSkills` and `filteredConnections` views, driven by the optional `activeCategory`.
- **The skill legend** (`SkillLegend.tsx`):
  - Each button's opacity and background as a function of `activeCategory`.
  - The enter/leave callbacks that set `activeCategory`.
- **The contact form** (`Contact.tsx`):
  - The zod schema: trim, then length bounds in UTF-16 code units, plus an email-shape test.
  - `handleChange`.
  - `handleSubmit`, modelled as a state machine over `formData`, `errors` and `isSubmitting`. It runs validation, then the captcha check, then the request, then one of three outcomes.
- **The background canvas** (`GenerativeCanvas.tsx`):
  - `resize` and `initParticles`, which lay a column-major grid on a 50 px pitch with offset 25.
  - `handleMouseMove`.
  - The per-particle update of `animate`: it changes only position and velocity.

Files:

| file | module | content |
|---|---|---|
| `wrappers.dfy` | `Wrappers` | `Option` |
| `skill_legend.dfy` | `SkillLegend` | legend rendering and hover requests (pure) |
| `skills.dfy` | `Skills` | data, `GenerateConnections` (a loop), legend memo, filters, facts about the shipped data |
| `contact.dfy` | `Contact` | schema, the submission state machine as functions, and the `ContactForm` class |
| `generative_canvas.dfy` | `GenerativeCanvas` | grid, particle physics step, and the `Particle` and `ParticleField` classes |

Modelling choices that follow the code:

- **`find` returns the first match.** `FindByName` and `FindAt` return the first skill with a given name or position.
- **A falsy `activeCategory` filters nothing.** The empty string is falsy, so it behaves like `null` (`IsFiltering`).
- **The email shape is a parameter.** zod's email test is the `shape: string -> bool` parameter, a constant of the form.
- **Issues accumulate.** zod reports every failing check of a field, in order. When `fieldErrors` is built, the last message for a field wins (`ErrorsOf`, `LastMessageWins`). So a malformed email over 255 characters shows the length message.
- **Falsy strings count as missing.** An empty captcha token counts as missing (`!hCaptchaToken`). An empty server message falls back to the default text (`data.message ||`).
- **On failure the toast shows the server's text.** A failed response shows the server's own message when it has one. Only an empty or absent message is replaced by "Something went wrong. Please try again.". A thrown request shows "...Please try again later.".
- **"Less than" means "at most".** The messages say "less than 100/255/1000 characters", but the checks are `max(...)`, which accept exactly 100/255/1000. The model follows the checks.
- **`err.path[0]` is always truthy.** It is always one of the three field names, and each name is non-empty (`Key`). So every issue reaches `fieldErrors`.
- **Clearing an error is key removal.** `handleChange` sets a field's error to `undefined` only when it is truthy. The model treats `undefined` as an absent key (`Change`).
- **`handleSubmit` is split at its `await`.**
  - `Begin` / `ContactForm.BeginSubmit` cover validation, the captcha check, building the request and raising `isSubmitting`.
  - `Finish` / `ContactForm.FinishSubmit` cover the outcome toast, the form reset on success and the `finally`.
  - `Submit` / `ContactForm.HandleSubmit` compose the two.
  - The relay's answer is the input `Response = Succeeded | Failed(message) | Threw`.
- **Randomness is a parameter.** `Math.random` becomes `draw: nat -> Draw`, and particle `k` takes draw `k`. The push of the pointer (`atan2`, `cos`, `sin`, `sqrt`) becomes the parameter `repel(dx, dy)`. Its guard `dist < 200` is modelled as `dx*dx + dy*dy < 40000`, without the square root. All arithmetic of the frame step is over the reals.

## Model

| member | source | states |
|---|---|---|
| Skills.SkillsData | src/components/sections/Skills.tsx:9-58 | the 39 skills; their positions are pairwise distinct (`ShippedCoordinatesDistinct`), and their categories and counts are given by `ShippedCategoryNames` and `ShippedCategoryCounts` |
| Skills.CategoryColors | src/components/sections/Skills.tsx:61-67 | the five category colours; `ShippedEntries` reads them back through `ColorOf` |
| Skills.ExplicitConnections | src/components/sections/Skills.tsx:70-122 | the 42 links; each names two shipped skills (`ShippedLinksAllResolve`) |
| Skills.ColorOf | src/components/sections/Skills.tsx:136 | `categoryColors[...]` is the record's colour, or nothing for a category it lacks; see `ShippedColors` and `CategoriesCountSkills` |
| Skills.Resolve | src/components/sections/Skills.tsx:129-137 | one pass of the `forEach` body; `ResolveExactly` says when it yields an edge and what the edge is, and `ColourIgnoresTo` says where its colour comes from |
| Skills.CategoryNames | src/components/sections/Skills.tsx:150 | `skillsData.map((s) => s.category)`: one category per skill, in order |
| Skills.Entry | src/components/sections/Skills.tsx:151-155 | one legend entry: name, colour and filter count; `CategoriesCountSkills` ties each entry to its category's skills |
| Skills.CategoryEntries | src/components/sections/Skills.tsx:151-155 | `cats.map(...)`: one entry per name, in order (`CategoryEntriesSnoc`) |
| Skills.Categories | src/components/sections/Skills.tsx:149-156 | the `categories` memo; `CategoriesDistinct`, `CategoriesCoverSkills`, `CategoriesCountSkills`, `CategoriesInFirstAppearanceOrder` and `CategoryCountsSum` characterise it |
| Skills.IsFiltering | src/components/sections/Skills.tsx:158 | the truthiness test `activeCategory ? ... : ...`: `null` and `""` filter nothing; `FilteredSkills` and `FilteredConnections` state its effect |
| Skills.Touches | src/components/sections/Skills.tsx:161-165 | `skill1?.category === active \|\| skill2?.category === active`; `EdgeTouchesIffLinkTouches` relates it to the name test |
| Skills.FindByName | src/components/sections/Skills.tsx:129-130 | `None` exactly when no skill has the name; otherwise the first skill with that name |
| Skills.FindAt | src/components/sections/Skills.tsx:162-163 | `None` exactly when no skill is at the point; otherwise the first skill at that point |
| Skills.ResolveExactly | src/components/sections/Skills.tsx:129-136 | a link is dropped exactly when one of its names is unknown; otherwise its edge joins the first skills with those names and is coloured by the `from` skill's category |
| Skills.Connections | src/components/sections/Skills.tsx:125-142 | no more connections than links (no deduplication, no extra edges) |
| Skills.ConnectionsAppend | src/components/sections/Skills.tsx:128-139 | the list for `a + b` is the list for `a` followed by the list for `b`, so edges keep the order of the links |
| Skills.ConnectionsOfOne | src/components/sections/Skills.tsx:128-139 | one link contributes its resolved edge or nothing, never a partial edge |
| Skills.ConnectionsAllResolved | src/components/sections/Skills.tsx:128-141 | when every link resolves, there are exactly as many connections as links |
| Skills.ColourIgnoresTo | src/components/sections/Skills.tsx:136 | an edge's colour depends only on its `from` skill: two links with the same `from` get the same colour |
| Skills.GenerateConnections | src/components/sections/Skills.tsx:125-142 | the `forEach`/`push` loop returns exactly `Connections(skills, links)` |
| Skills.Distinct | src/components/sections/Skills.tsx:150 | `[...new Set(xs)]` has no duplicates and holds exactly the values of `xs` |
| Skills.DistinctKeepsFirstAppearanceOrder | src/components/sections/Skills.tsx:150 | the distinct values are listed in order of first appearance |
| Skills.SkillsIn | src/components/sections/Skills.tsx:154 | `filter` keeps exactly the skills of the category, and no more skills than there were |
| Skills.SkillsInAppend | src/components/sections/Skills.tsx:154 | filtering distributes over concatenation, so it keeps the original order |
| Skills.CategoriesDistinct | src/components/sections/Skills.tsx:149-156 | no category appears twice in the legend |
| Skills.CategoriesCoverSkills | src/components/sections/Skills.tsx:149-156 | every skill's category has a legend entry |
| Skills.CategoriesCountSkills | src/components/sections/Skills.tsx:149-156 | every entry names a category that some skill has, carries that category's colour, and counts its skills (at least one) |
| Skills.CategoriesInFirstAppearanceOrder | src/components/sections/Skills.tsx:150-151 | legend entries appear in the order their categories first appear among the skills |
| Skills.CategoryCountsSum | src/components/sections/Skills.tsx:258 | the legend's counts add up to the number of skills |
| Skills.FilteredSkills | src/components/sections/Skills.tsx:158 | with no (or an empty) active category every skill is shown; otherwise exactly the skills of that category, as many as `SkillsIn` keeps |
| Skills.ConnectionsTouching | src/components/sections/Skills.tsx:161-165 | an edge is kept exactly when the skill found at either of its coordinates is in the category |
| Skills.FilteredConnections | src/components/sections/Skills.tsx:160-166 | with no active category every edge is shown; otherwise exactly the edges touching the category |
| Skills.LookupRecovers | src/components/sections/Skills.tsx:162-163 | with distinct positions, looking a skill up by its own position finds that skill |
| Skills.EdgeTouchesIffLinkTouches | src/components/sections/Skills.tsx:162-164 | with distinct positions, the coordinate test on an edge agrees with the name test on its link, in both directions |
| Skills.FilterByCoordinatesIsFilterByName | src/components/sections/Skills.tsx:160-166 | with distinct positions, filtering the drawn edges by coordinates equals drawing only the links whose named skills touch the category |
| Skills.LeaveShowsEverything | src/components/sections/Skills.tsx:158-166 | the `null` that a legend leave requests restores both unfiltered views |
| Skills.EnterShowsThatCategory | src/components/sections/Skills.tsx:220 | entering legend entry `k` shows exactly that category's skills, as many as the entry's count |
| Skills.Points | src/components/sections/Skills.tsx:9-58 | the positions of the skills, one per skill, in order |
| Skills.Names | src/components/sections/Skills.tsx:9-58 | the names of the skills, one per skill, in order |
| Skills.ShippedPoints | src/components/sections/Skills.tsx:9-58 | the positions of the 39 shipped skills are exactly the listed coordinate table |
| Skills.ShippedPositionsDistinct | src/components/sections/Skills.tsx:9-58 | the 39 shipped coordinates are pairwise distinct |
| Skills.ShippedCoordinatesDistinct | src/components/sections/Skills.tsx:9-58 | no two shipped skills share a position |
| Skills.ShippedLinksAllResolve | src/components/sections/Skills.tsx:70-122 | every one of the shipped links names two shipped skills, so all 42 edges are drawn |
| Skills.ShippedFilteredConnections | src/components/sections/Skills.tsx:160-166 | on the shipped data, hovering a category keeps exactly the edges whose links touch it by name |
| Skills.ShippedCategoryNames | src/components/sections/Skills.tsx:150 | the shipped categories are Languages, Frontend, Backend, Database, DevOps, in that order |
| Skills.ShippedSkillsIn | src/components/sections/Skills.tsx:158 | hovering a shipped category shows exactly its own cluster |
| Skills.ShippedCategoryCounts | src/components/sections/Skills.tsx:154 | the shipped categories hold 7, 9, 9, 7 and 7 skills |
| Skills.ShippedEntries | src/components/sections/Skills.tsx:61-67 | each shipped legend entry carries its `categoryColors` colour and its count |
| Skills.ShippedCategories | src/components/sections/Skills.tsx:149-156 | the shipped legend is the five entries, in order, with their colours and counts |
| Skills.DistinctOfFiveRuns | src/components/sections/Skills.tsx:150 | five runs of five different values produce those five values, once each, in order |
| Skills.SkillsInFiveRuns | src/components/sections/Skills.tsx:154 | filtering five single-category runs keeps exactly the runs of the chosen category |
| SkillLegend.Render | src/components/ui/SkillLegend.tsx:25-35 | keyed by name; full opacity iff no category is active or it is this one; tinted iff it is this one; tinted implies full opacity |
| SkillLegend.Buttons | src/components/ui/SkillLegend.tsx:24-35 | one button per category, in order, each with the opacity and background of `Render` |
| SkillLegend.AtMostOneHighlighted | src/components/ui/SkillLegend.tsx:34 | with distinct names, at most one button is tinted |
| SkillLegend.HoverRequest | src/components/ui/SkillLegend.tsx:36-37 | entering requests the entry's own name, leaving requests `null` |
| SkillLegend.EnterHighlightsOnlyThatEntry | src/components/ui/SkillLegend.tsx:28-36 | after entering button `k`, it alone is tinted and at full opacity, and every other button is dimmed |
| SkillLegend.LeaveRestoresLegend | src/components/ui/SkillLegend.tsx:28-37 | after leaving, every button is at full opacity and none is tinted |
| Contact.Key | src/components/sections/Contact.tsx:86 | every issue path is a field name, and every field name is non-empty, so the `if (err.path[0])` guard never skips an issue; the same names key the request parts |
| Contact.IsJsWhitespace | src/components/sections/Contact.tsx:19 | the characters `trim` removes: the ECMAScript WhiteSpace and LineTerminator code points |
| Contact.TrimStart | src/components/sections/Contact.tsx:19 | drops leading whitespace; characterised by `TrimStartDropsLeadingWhitespace` |
| Contact.TrimEnd | src/components/sections/Contact.tsx:19 | drops trailing whitespace; characterised by `TrimEndDropsTrailingWhitespace` |
| Contact.Trim | src/components/sections/Contact.tsx:19 | `.trim()`; characterised by `TrimIsTheInnerSlice` and `TrimIdempotent` |
| Contact.NameValid | src/components/sections/Contact.tsx:17-21 | the trimmed name has 1 to 100 code units; `NameIssues` is empty exactly when it holds |
| Contact.EmailValid | src/components/sections/Contact.tsx:22-26 | the trimmed email has the shape and at most 255 code units; `EmailIssues` is empty exactly when it holds |
| Contact.MessageValid | src/components/sections/Contact.tsx:27-31 | the trimmed message has 1 to 1000 code units; `MessageIssues` is empty exactly when it holds |
| Contact.RequestBody | src/components/sections/Contact.tsx:106-111 | the five appended parts; `RequestCarriesRawValues` states their order and values |
| Contact.HasToken | src/components/sections/Contact.tsx:95 | `!hCaptchaToken` is false: a token is present and non-empty; `Begin` sends a request exactly when the form is valid and this holds |
| Contact.With | src/components/sections/Contact.tsx:73 | `{ ...prev, [name]: value }` sets the named field and leaves the other two alone |
| Contact.TrimStartDropsLeadingWhitespace | src/components/sections/Contact.tsx:19 | trimming the start removes exactly the leading whitespace |
| Contact.TrimEndDropsTrailingWhitespace | src/components/sections/Contact.tsx:19 | trimming the end removes exactly the trailing whitespace |
| Contact.TrimIsTheInnerSlice | src/components/sections/Contact.tsx:19 | `trim` returns the slice between the leading and the trailing whitespace |
| Contact.TrimIdempotent | src/components/sections/Contact.tsx:19 | trimming twice is trimming once |
| Contact.Utf16Length | src/components/sections/Contact.tsx:20-21 | the length zod measures is between the number of characters and twice that |
| Contact.Utf16LengthOfBmp | src/components/sections/Contact.tsx:20-21 | for text without astral characters it is the number of characters |
| Contact.NameIssues | src/components/sections/Contact.tsx:17-21 | no issue iff the trimmed name has 1 to 100 code units; every issue is on `name` |
| Contact.EmailIssues | src/components/sections/Contact.tsx:22-26 | no issue iff the trimmed email has the shape and at most 255 code units; every issue is on `email` |
| Contact.MessageIssues | src/components/sections/Contact.tsx:27-31 | no issue iff the trimmed message has 1 to 1000 code units; every issue is on `message` |
| Contact.Issues | src/components/sections/Contact.tsx:16-32 | `safeParse` succeeds iff all three fields are valid |
| Contact.ErrorsOf | src/components/sections/Contact.tsx:84-89 | `fieldErrors` has an entry for exactly the fields that have an issue |
| Contact.LastMessageWins | src/components/sections/Contact.tsx:85-89 | a field's shown error is the message of its last issue |
| Contact.CollectFieldErrors | src/components/sections/Contact.tsx:84-89 | the `forEach` loop builds exactly `ErrorsOf(issues)` |
| Contact.RequestCarriesRawValues | src/components/sections/Contact.tsx:106-111 | the body has five parts in order (name, email, message, access_key, h-captcha-response), carrying the raw untrimmed values, the access key and the token |
| Contact.ResponseToast | src/components/sections/Contact.tsx:120-142 | destructive iff not a success; "Message sent!" or "Error"; a failure shows the server message when it is non-empty and the default text otherwise |
| Contact.Change | src/components/sections/Contact.tsx:71-77 | only the named field changes; its error is cleared iff one was set; other errors and `isSubmitting` are untouched |
| Contact.Begin | src/components/sections/Contact.tsx:82-103 | invalid form: errors are replaced wholesale by `ErrorsOf(issues)`, with no toast and no request. Valid form, missing token: state unchanged and the captcha toast. Otherwise `isSubmitting` is raised and the five-part body is sent. `formData` never changes |
| Contact.Finish | src/components/sections/Contact.tsx:120-145 | success empties the form, failure and exception keep it; errors are untouched; `isSubmitting` ends false; the toast is `ResponseToast` |
| Contact.Submit | src/components/sections/Contact.tsx:79-146 | a response matters only when a request was sent; after one, `isSubmitting` is false and the form is cleared exactly on success |
| Contact.EmptyNameIsTheOnlyError | src/components/sections/Contact.tsx:82-91 | an empty name beside a valid email and message blocks submission with exactly `{name: "Name is required"}` |
| Contact.LongMalformedEmailShowsLengthMessage | src/components/sections/Contact.tsx:22-26 | a malformed email over 255 code units shows the length message, the last one reported |
| Contact.ContactForm.constructor | src/components/sections/Contact.tsx:63-69 | empty form, no errors, not submitting |
| Contact.ContactForm.HandleChange | src/components/sections/Contact.tsx:71-77 | the new state is `Change` of the old one |
| Contact.ContactForm.BeginSubmit | src/components/sections/Contact.tsx:79-111 | the new state, outcome and toast are `Begin` of the old state |
| Contact.ContactForm.FinishSubmit | src/components/sections/Contact.tsx:113-145 | the new state and toast are `Finish` of the old state |
| Contact.ContactForm.HandleSubmit | src/components/sections/Contact.tsx:79-146 | the whole handler is `Submit` of the old state |
| GenerativeCanvas.Column | src/components/GenerativeCanvas.tsx:39-41 | column `i` holds `rows` anchors at `(i*50+25, j*50+25)` from top to bottom |
| GenerativeCanvas.Grid | src/components/GenerativeCanvas.tsx:38-41 | the anchors the nested loops visit, column after column; `GridSize`, `GridAt`, `GridDistinct`, `GridNeighbours` and `GridInsideCanvas` characterise it |
| GenerativeCanvas.WithinReach | src/components/GenerativeCanvas.tsx:61-66 | `Math.sqrt(dx*dx + dy*dy) < 200` with both sides squared; `OutOfReachIgnoresRepulsion` states what failing it means |
| GenerativeCanvas.Advance | src/components/GenerativeCanvas.tsx:60-82 | one particle's frame: push, spring, damping, move; `Particle.Update` performs it in place, and `OutOfReachIgnoresRepulsion` and `RestIsFixedPoint` characterise it |
| GenerativeCanvas.GridSize | src/components/GenerativeCanvas.tsx:35-39 | a grid of `cols` columns holds `cols * rows` anchors |
| GenerativeCanvas.GridAt | src/components/GenerativeCanvas.tsx:38-41 | the anchor at index `i*rows + j` is `(i*50+25, j*50+25)` (column-major) |
| GenerativeCanvas.IndexIsColumnAndRow | src/components/GenerativeCanvas.tsx:38-41 | every index is `i*rows + j` for a column `i < cols` and a row `j < rows` |
| GenerativeCanvas.GridDistinct | src/components/GenerativeCanvas.tsx:38-41 | anchors are pairwise distinct |
| GenerativeCanvas.GridNeighbours | src/components/GenerativeCanvas.tsx:40-41 | the next row is 50 px lower in the same column; the next column is 50 px to the right in the same row |
| GenerativeCanvas.GridInsideCanvas | src/components/GenerativeCanvas.tsx:35-41 | every anchor is at least 25 px inside each edge of the canvas |
| GenerativeCanvas.SizeFor | src/components/GenerativeCanvas.tsx:49 | over the reals, a uniform draw gives a size in [1, 3); float64 rounding can reach 3 (see "## Left out") |
| GenerativeCanvas.ColorFor | src/components/GenerativeCanvas.tsx:50 | saturation 70 and lightness 60; over the reals, a uniform draw gives a hue in [260, 320) and an alpha in [0.3, 0.7); float64 rounding can reach 320 and 0.7 (see "## Left out") |
| GenerativeCanvas.OutOfReachIgnoresRepulsion | src/components/GenerativeCanvas.tsx:66-79 | out of the pointer's reach the push plays no part: the velocity is the damped spring alone |
| GenerativeCanvas.RestIsFixedPoint | src/components/GenerativeCanvas.tsx:60-82 | a particle at rest on its anchor, out of reach, stays at rest on its anchor |
| GenerativeCanvas.Particle.Update | src/components/GenerativeCanvas.tsx:60-82 | position and velocity become `Advance` of the old ones; anchor, size and colour are unchanged |
| GenerativeCanvas.Particle.constructor | src/components/GenerativeCanvas.tsx:42-51 | a new particle rests on its anchor with zero velocity and takes its size and colour from its draw |
| GenerativeCanvas.ParticleField.constructor | src/components/GenerativeCanvas.tsx:110-113 | mounting takes the window size, starts the pointer at the origin and lays the grid |
| GenerativeCanvas.ParticleField.InitParticles | src/components/GenerativeCanvas.tsx:33-54 | the old particles are discarded; the new ones are distinct, fresh, and laid on `Grid(width/50, height/50)`, at rest, with particle `k` drawn with draw `k` |
| GenerativeCanvas.ParticleField.LayColumn | src/components/GenerativeCanvas.tsx:39-52 | the inner loop appends column `i`, keeps the earlier particles and keeps the list free of duplicates |
| GenerativeCanvas.ParticleField.Resize | src/components/GenerativeCanvas.tsx:27-31 | the size is set first and the grid is then laid again for it |
| GenerativeCanvas.ParticleField.HandleMouseMove | src/components/GenerativeCanvas.tsx:106-108 | only the pointer position changes |
| GenerativeCanvas.ParticleField.Animate | src/components/GenerativeCanvas.tsx:60-82 | every particle advances by `Advance`; the list, anchors, sizes and colours are unchanged |
| GenerativeCanvas.LaidGridShape | src/components/GenerativeCanvas.tsx:35-41 | a laid field has `floor(width/50) * floor(height/50)` particles, on pairwise distinct anchors, all inside the canvas |

## Left out

- Drawing: the canvas fill, particle circles and particle-to-particle lines (`GenerativeCanvas.tsx` lines 57-58 and 84-100), `requestAnimationFrame` and the unmount cleanup. They are rendering and scheduling, with no state the model keeps.
- The push's direction and size (`Math.sqrt`, `Math.atan2`, `Math.cos`, `Math.sin`): this is the `repel` parameter.
- Floating point: all arithmetic of the frame step is exact over the reals. This covers the guard's differences, squares, sum and square root, the spring, the damping and the position update `p.x += p.vx`. float64 rounding is not modelled.
- GenerativeCanvas.SizeFor: its upper bound `size < 3` holds over the reals only. In float64, `r * 2 + 1` rounds to exactly 3 when `Math.random` returns 1 - 2^-53, which ECMAScript allows.
- GenerativeCanvas.ColorFor: its upper bounds `hue < 320` and `alpha < 0.7` hold over the reals only. In float64, a draw of 1 - 2^-52 makes `260 + r * 60` round to exactly 320 and `0.3 + r * 0.4` round to exactly 0.7.
- `Math.random`: it is the `draw` parameter. The text rendering of the `hsla(...)` colour string is not modelled; the colour is kept as its four numbers.
- The early returns when the canvas or its 2D context is missing (`GenerativeCanvas.tsx` lines 21-25): the model assumes both exist.
- The mount sequence `resize(); animate();` is modelled only as the constructor laying the grid. The first frame is an ordinary `Animate` call.
- `fetch`, JSON parsing, `window.hcaptcha.reset`, `document.querySelector` and `toast` itself: the token and the relay's answer are inputs, and the toast is returned as a value.
- zod's email regular expression: it is the uninterpreted `shape` parameter.
- Lone UTF-16 surrogates: Dafny characters are Unicode scalar values, so `Utf16Length` counts astral characters as two units and cannot represent unpaired surrogates.
- `errors` entries set to `undefined` are modelled as removed keys. Nothing reads the difference.
- The presentation of skills and edges (`SkillNode`, `ConstellationLines`, sizes `sm`/`md`/`lg`) beyond the data that reaches them.
