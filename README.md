# web3daily: a verified model of the solar-system scene, the tabs and the daily feed

This project models three parts of the web3daily front end. It proves what each part does.

**The solar system.** Eight planets orbit a central Sun. Each frame, every visible planet moves
to the position its orbit gives at the elapsed time its own callback reads from the clock. Each planet name picks its own orbit
from a switch:
- an ellipse;
- an ellipse with a small vertical wave;
- any other name: a plain circle.

Clicking a body focuses and inspects it. While a body is inspected, only that body is shown.
Each frame, the camera then moves 5% of the way towards a point 8 units in front of the body
and looks at it. A close button ends the inspection. There are two layouts, desktop and mobile:
- the same bodies, with the same configuration;
- each has its own copy of the orbit switch;
- their heads-up text differs.

The model proves:
- the two switches are equal;
- the two layouts are equal;
- every orbit stays within a ring around the Sun, so no planet of the layout ever touches the Sun;
- the camera approaches a fixed goal geometrically: after k frames the squared distance is
  0.9025^k of what it was.

**The tabs** (two copies of one component):
- children are split by their component's `displayName` into triggers and contents, and any
  other child is dropped;
- exactly the triggers whose value equals the active tab are marked active;
- a trigger click makes its value the active tab;
- the first content whose value equals the active tab is shown.

**The daily feed** shows five platform tabs, each mapped to one CMS endpoint.
- A tab change starts a fetch from `https://web3daily-cms.onrender.com/api/<endpoint>`.
- The view shows one of three things: a loading line, a "no content" message, or one card per post.
- Each card picks its title, text and link with JavaScript `||` fallbacks.

Host behaviour is modelled as follows:
- **Numbers.** Coordinates are exact reals.
- **Trigonometry.** `Math.cos` and `Math.sin` are a `Trig` value passed in. The only fact used
  about it is the Pythagorean identity (`Trig.Valid`).
- **Truthiness.** JavaScript truthiness of an optional string is `Wrappers.Truthy`.
- **Network.** The HTTP request becomes a parameter: the URL goes out and a `FetchResult` comes back.

The files are:
- `geometry.dfy`: `Wrappers` and `Geometry` (vectors, lerp, `Trig`);
- `orbit.dfy`: `Orbit` (the orbit switches and their bounds);
- `solarsystem.dfy`: `SolarSystem` (layout, visibility, frames, camera, the `Scene` class);
- `tabs.dfy`: `TabsUi`;
- `feed.dfy`: `DailyFeed`.

## Model

| member | source | states |
|---|---|---|
| Geometry.Lerp | src/components/SolarSystem.jsx:31 | Vector3.lerp leaves, on each axis, the fraction 1 - alpha of the gap to the goal |
| Geometry.LerpScalesDistSq | src/components/SolarSystem.jsx:31 | after a lerp, the squared distance to the goal is the old one times (1 - alpha)^2 |
| Geometry.TrigBounds | src/components/SolarSystem.jsx:97-147 | cos and sin lie in [-1, 1] at every angle, from the Pythagorean identity alone |
| Geometry.Add | src/components/SolarSystem.jsx:30 | no contract of its own: Vector3.add building the standoff point; specified by Geometry.AddDistance and SolarSystem.StandoffDistance, and used by SolarSystem.Scene.Frame |
| Geometry.AddDistance | src/components/SolarSystem.jsx:30 | adding a vector moves a point exactly as far as that vector is long |
| SolarSystem.StandoffDistance | src/components/SolarSystem.jsx:30 | the point the camera aims at is 8 units from the focused body |
| Orbit.PathOf | src/components/SolarSystem.jsx:94-149 | a name falls to the default circle case exactly when it is none of the eight planet names |
| Orbit.PathPos | src/components/SolarSystem.jsx:95-148 | no contract of its own: the body of each case, as written; specified by Orbit.PathBounds, Orbit.PathSharesAngle and Orbit.DefaultOrbitIsCircle |
| Orbit.OrbitPos | src/components/SolarSystem.jsx:94-149 | no contract of its own: the desktop switch, the case Orbit.PathOf selects; specified by Orbit.PathBounds, Orbit.DefaultOrbitIsCircle and SolarSystem.NeverTouchesSun |
| Orbit.OrbitPosMobile | src/components/SolarSystemMobile.jsx:87-137 | no contract of its own: the mobile switch, transcribed separately; specified by Orbit.MobileOrbitMatchesDesktop |
| Orbit.InnerScale | src/components/SolarSystem.jsx:95-148 | the smaller semi-axis factor of each case lies in [0.7, 1.0] |
| Orbit.OuterScale | src/components/SolarSystem.jsx:95-148 | the larger semi-axis factor of each case lies in [1.0, 1.2] |
| Orbit.Tilt | src/components/SolarSystem.jsx:106-142 | the vertical amplitude factor is in [0, 0.2], and positive exactly for Mantra, Sei, THORChain and Akash |
| Orbit.PathBounds | src/components/SolarSystem.jsx:81-83 | in every case the horizontal squared distance from the centre lies between (InnerScale * radius)^2 and (OuterScale * radius)^2, and the height is at most Tilt * abs(radius) |
| Orbit.PathSharesAngle | src/components/SolarSystem.jsx:95-148 | in every case x is a semi-axis times the cosine and z a semi-axis times the sine of the same angle |
| Orbit.DefaultOrbitIsCircle | src/components/SolarSystem.jsx:144-148 | a name outside the table moves on the circle of its radius in the horizontal plane |
| Orbit.MobileOrbitMatchesDesktop | src/components/SolarSystemMobile.jsx:87-137 | the mobile switch puts every name at the same point as the desktop switch |
| SolarSystem.MobileLayoutMatchesDesktop | src/components/SolarSystemMobile.jsx:241-341 | the mobile scene lays out the same nine bodies as the desktop scene, in the same order |
| SolarSystem.LayoutWellFormed | src/components/SolarSystem.jsx:265-365 | body names are distinct; the Sun is first and is the only body marked isSun; the eight planets have exactly the eight names of the switch's cases |
| SolarSystem.IsVisible | src/components/SolarSystem.jsx:223-226 | no contract of its own: isVisible with JavaScript truthiness; specified by SolarSystem.VisibilityRule |
| SolarSystem.VisibleSet | src/components/SolarSystem.jsx:223-226 | no contract of its own: the indices of the visible bodies; specified by SolarSystem.VisibilityRule |
| SolarSystem.VisibilityRule | src/components/SolarSystem.jsx:223-226 | with nothing inspected every body is visible; with body k inspected exactly body k is visible |
| SolarSystem.LayoutClearOfSun | src/components/SolarSystem.jsx:278-365 | each planet's inner ring radius exceeds the sum of its size and the Sun's |
| SolarSystem.LayoutClearOfSunWhenHovered | src/components/SolarSystem.jsx:172 | even with the Sun and a planet both drawn at the hover scale 1.1, each planet's inner ring radius exceeds the sum of their radii |
| SolarSystem.NeverTouchesSun | src/components/SolarSystem.jsx:38-40 | at any time, every planet's centre is farther from the Sun's centre than the two radii together |
| SolarSystem.BodyStep | src/components/SolarSystem.jsx:85-152 | no contract of its own: one body's frame callback, with the early return of line 86; specified by SolarSystem.BodyStepCases |
| SolarSystem.FramePositions | src/components/SolarSystem.jsx:85-152 | every body's frame update, one per body, each with that body's own clock reading; specified by SolarSystem.StepBodies and SolarSystem.FrameKeepsPositionsOk |
| SolarSystem.BodyStepCases | src/components/SolarSystem.jsx:85-152 | in a frame the Sun and hidden bodies keep their position, and every other body lands on its ring |
| SolarSystem.StepBodies | src/components/SolarSystem.jsx:85-152 | running the frame callback of each body in render order yields, for each body, its one-body frame update |
| SolarSystem.FrameKeepsPositionsOk | src/components/SolarSystem.jsx:85-152 | a frame keeps the Sun at the origin and every body at the origin or on its ring |
| SolarSystem.FocusStep | src/components/SolarSystem.jsx:30-31 | no contract of its own: the lerp by 0.05 towards the goal; specified by SolarSystem.FocusStepGap and SolarSystem.FocusStepDistance |
| SolarSystem.FocusStepGap | src/components/SolarSystem.jsx:29-31 | one focusing frame leaves 95% of the gap to the standoff point on every axis, without overshooting it |
| SolarSystem.FocusStepDistance | src/components/SolarSystem.jsx:29-31 | one focusing frame scales the squared distance by 0.9025, and so strictly approaches any point the camera is not at |
| SolarSystem.FocusConverges | src/components/SolarSystem.jsx:26-36 | focusing on a fixed goal for k frames leaves 0.9025^k of the squared distance |
| SolarSystem.DesktopHud | src/components/SolarSystem.jsx:231-248 | no contract of its own: the hint or the inspection panel; specified by SolarSystem.HudsAgree |
| SolarSystem.MobileHud | src/components/SolarSystemMobile.jsx:212-225 | no contract of its own: the inspection panel or nothing; specified by SolarSystem.HudsAgree |
| SolarSystem.HudsAgree | src/components/SolarSystem.jsx:231-248 | both layouts show a panel exactly while a name is inspected, titled with that name (the mobile panel is lines 212-225 of SolarSystemMobile.jsx); the desktop hint shows exactly when the mobile layout shows nothing |
| SolarSystem.Scene.constructor | src/components/SolarSystem.jsx:201-202 | the scene starts with every body at the origin, nothing focused or inspected, and the camera at (0, 0, 120) |
| SolarSystem.Scene.Click | src/components/SolarSystem.jsx:216-219 | a click focuses the clicked body and inspects its name, and changes nothing else |
| SolarSystem.Scene.Close | src/components/SolarSystem.jsx:239-242 | closing clears focus and inspection, and changes nothing else |
| SolarSystem.Scene.Frame | src/components/SolarSystem.jsx:26-152 | the bodies move as StepBodies says, each with its own clock reading; while a body is focused the camera lerps by 0.05 towards its new position plus (0, 0, 8) and looks at it; otherwise the camera is untouched |
| TabsUi.Select | src/components/ui/tabs.jsx:6-11 | the filter keeps exactly the element children tagged with the given displayName, and fails when a child has no type |
| TabsUi.SelectAppend | src/components/tabss.jsx:7-12 | the filter keeps the children's order: filtering a concatenation concatenates the results |
| TabsUi.PartitionDisjoint | src/components/ui/tabs.jsx:6-11 | no child is both a trigger and a content, and a child tagged with neither (TabsList) is in neither list |
| TabsUi.ActiveFlags | src/components/ui/tabs.jsx:16-21 | one isActive flag per trigger; what each flag is, is stated by TabsUi.ActiveFlagsAt |
| TabsUi.ActiveFlagsAt | src/components/ui/tabs.jsx:18 | a trigger is marked active if and only if its value equals the active tab |
| TabsUi.AtMostOneActive | src/components/tabss.jsx:19 | when the trigger values are distinct, at most one trigger is active |
| TabsUi.FirstMatch | src/components/ui/tabs.jsx:24 | the shown content is the first one whose value equals the active tab, and there is none exactly when no content matches |
| TabsUi.Tabs.constructor | src/components/ui/tabs.jsx:4 | the active tab starts as defaultValue |
| TabsUi.Tabs.Render | src/components/tabss.jsx:14-28 | the render fails exactly when a child has no type; otherwise the triggers are the TabsTrigger children in order (the filter's result), each flagged with whether its value is the active tab, and the content shown is the first TabsContent child whose value is the active tab, or none exactly when no content matches |
| TabsUi.Tabs.Click | src/components/ui/tabs.jsx:19 | a trigger click makes its value active; clicking the active trigger changes nothing |
| DailyFeed.EndpointsTable | src/components/Web3DailyFeed.jsx:5-11 | the table's keys are the five labels, each listed once, and no two labels share an endpoint |
| DailyFeed.EndpointText | src/components/Web3DailyFeed.jsx:23 | no contract of its own: endpoints[activeTab] in the template string; specified by DailyFeed.RequestUrl |
| DailyFeed.RequestUrl | src/components/Web3DailyFeed.jsx:22-24 | for every label the buttons and the initial state can set, the URL is the API base followed by that label's endpoint; for other strings see "Left out" |
| DailyFeed.RequestUrlInjective | src/components/Web3DailyFeed.jsx:5-24 | different tabs of the table fetch from different URLs |
| DailyFeed.OrChain | src/components/Web3DailyFeed.jsx:68-75 | JavaScript a \|\| b \|\| ... yields one of its operands: the first truthy one, or the last when none is truthy |
| DailyFeed.OrChainPicksFirstTruthy | src/components/Web3DailyFeed.jsx:71 | the chain yields operand i whenever that is the first truthy operand |
| DailyFeed.DisplayName | src/components/Web3DailyFeed.jsx:61-68 | no contract of its own: attrs?.DisplayName, undefined when the post has no attributes; specified by DailyFeed.Title |
| DailyFeed.TweetText | src/components/Web3DailyFeed.jsx:71 | no contract of its own: attrs?.TweetText; specified by DailyFeed.Body |
| DailyFeed.Description | src/components/Web3DailyFeed.jsx:71 | no contract of its own: attrs?.Description; specified by DailyFeed.Body |
| DailyFeed.TweetUrl | src/components/Web3DailyFeed.jsx:73-75 | no contract of its own: attrs?.TweetURL; specified by DailyFeed.Link |
| DailyFeed.VideoUrl | src/components/Web3DailyFeed.jsx:73-75 | no contract of its own: attrs?.VideoURL; specified by DailyFeed.Link |
| DailyFeed.Title | src/components/Web3DailyFeed.jsx:68 | the heading is the display name when truthy, else "Untitled" |
| DailyFeed.Body | src/components/Web3DailyFeed.jsx:71 | the text is the tweet text, else the description, else "No content provided.", taking the first truthy one |
| DailyFeed.Link | src/components/Web3DailyFeed.jsx:73-75 | the link exists exactly when the tweet URL or the video URL is truthy, and then points at the tweet URL first |
| DailyFeed.CardOf | src/components/Web3DailyFeed.jsx:60-85 | no contract of its own: a post's card, keyed by its id; its title, text and link are specified by DailyFeed.Title, DailyFeed.Body and DailyFeed.Link |
| DailyFeed.ViewOf | src/components/Web3DailyFeed.jsx:52-86 | the view is loading exactly while loading; "No content available for <tab>." exactly otherwise when there are no posts; else one card per post, in order |
| DailyFeed.Buttons | src/components/Web3DailyFeed.jsx:38-50 | one button per label of the table, in the table's order |
| DailyFeed.OneButtonHighlighted | src/components/Web3DailyFeed.jsx:43 | a button is highlighted exactly when its label is the active tab, and then no other button is |
| DailyFeed.Feed.constructor | src/components/Web3DailyFeed.jsx:14-16 | the feed starts on "X", with no posts, not loading |
| DailyFeed.Feed.SelectTab | src/components/Web3DailyFeed.jsx:41 | the clicked label becomes the active tab, and the fetch effect reruns exactly when the tab changed |
| DailyFeed.Feed.StartFetch | src/components/Web3DailyFeed.jsx:19-24 | a fetch sets loading and requests the URL of the active tab |
| DailyFeed.Feed.FinishFetch | src/components/Web3DailyFeed.jsx:25-30 | a success replaces the posts with the response list, a failure keeps them, and loading ends either way |

## Left out

- Rendering is not modelled: meshes, textures, decals, lights, fog, stars, bloom and styles.
- Hover scaling and the pointer cursor are not modelled (SolarSystem.jsx:158-167, 172). They have no effect on positions, focus or inspection. The drawn sphere grows by 1.1 while hovered; `SolarSystem.LayoutClearOfSunWhenHovered` shows the clearance from the Sun still holds with both spheres at that scale, the tightest case being Osmosis (12 > 5.5 + 2.2).
- The FastAverageColor tint sampled from each logo is not modelled (SolarSystem.jsx:67-79). It is image I/O.
- OrbitControls is not modelled (SolarSystem.jsx:371-379). Its auto-rotation and user zoom, pan and rotate also move the camera, so the camera facts hold only for the camera moves FocusCamera makes.
- Floating point is not modelled: coordinates are exact reals and `Math.cos`/`Math.sin` are an abstract `Trig` with the Pythagorean identity.
- The order of frame callbacks is an assumption. `SolarSystem.Scene.Frame` assumes the bodies' callbacks run before the camera's, as their render order has them subscribe. React Three Fiber's scheduling itself is not modelled.
- The clock readings are free. `SolarSystem.Scene.Frame` takes one reading per body and does not require them to increase in render order, as THREE.Clock's would; no property proved needs the order.
- `groupRef.current` is taken to be set. The model drops the guard that skips a frame before the mesh is mounted.
- Pointer picking is not modelled. `SolarSystem.Scene.Click` takes the index of any body, hidden or not, and does not model how a click finds its target.
- The mobile layout reuses `SolarSystem.Scene`. It differs only in its HUD and in its own copy of the orbit switch, which is proved equal to the desktop one.
- Planet-to-planet distances are not proved. Whether two planets can come close depends on the actual trigonometric values and speeds, and the model keeps trig abstract. `NeverTouchesSun` covers the Sun only.
- There are no collisions, no comets and no camera reset on close in the source, so the model has none either: close only clears focus, and the camera stays where it is.
- Tabs: React.Children.toArray, cloneElement and key handling are not modelled. A child is only its displayName and its value prop. A text child makes the filter throw, modelled as `None`.
- DailyFeed.RequestUrl: for a string that names a property inherited from `Object.prototype` ("toString", "constructor", "__proto__", ...), `endpoints[activeTab]` finds that property and the URL ends in its string form; the model ends it in "undefined" as for any other string outside the table. No button or initial state sets such a tab.
- DailyFeed.Feed.StartFetch sends no HTTP request: axios and the network become the returned URL and the `FetchResult` passed to `FinishFetch`.
- Overlapping fetches after quick tab changes are not modelled. The model runs one fetch at a time.
- The console.error log on failure is not modelled.
- A success whose response lacks `data.data` is not modelled. In the source that sets posts to undefined and the next render throws; the model takes a success to carry a list.
