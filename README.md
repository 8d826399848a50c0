# Collaborative folders: the activity page's request logic

A Dafny model of `view.php`, the page of the Moodle activity
*collaborativefolders*. For each request the page decides whether the
activity's folders exist yet on the ownCloud server, which remote path a user is
shared (course-module folder, or the user's group subfolder), who sees the group
overview, who may hold a link, and whether to show a stored link, to create one
(create a share, then rename it) or to offer the name form and the reset,
login-or-logout and generate links. It also updates the user's preferences on a
reset or a submitted name.

The model is split by concern:

- `Decimal` (decimal.dfy): PHP's spelling of a non-negative integer in string
  concatenation, with its inverse, so keys and paths can be told apart.
- `Preferences` (preferences.dfy): the keys `"cf_link " + id` and
  `"cf_link " + id + " name"`, PHP's loose `== null` on a preference value
  (`""` counts as null), and the class `PreferenceStore` whose `prefs` map the
  page reads and writes (writing null removes the key).
- `Provisioning` (provisioning.dfy): the scan over the pending folder-creation
  tasks, as a loop.
- `Paths` (paths.dfy): the share path and the rename path, assigned and extended
  step by step as on the page, with the proof that distinct (course module,
  group) pairs never share a path.
- `Access` (access.dfy): the boolean gates `$showtable`, `$teacheraccess`,
  `$hasaccess` (the `xor` law), `$haslink`, `$cangenerate`, `$nolink`.
- `Output` (output.dfy): the observable actions of a request (renderings, remote
  calls, events, redirects), grouped into channels, and `On`, the filter by
  channel.
- `Saga` (saga.dfy): the share-then-rename operation and its tagged outcome
  `Shared | ShareFailed | RenameFailed`.
- `Workflow` (workflow.dfy): the `Request` inputs, the page's decision variables
  (`Decisions`, computed by `Decide`), the page those decisions produce
  (`Page`), `Respond` (what a request does, as a value) and `View`, the
  imperative page run on a `PreferenceStore`, proved equal to `Respond`.
- `RequestLaws` (laws.dfy): how the decisions follow from the request, what the
  page renders, calls and triggers channel by channel, and how the store
  changes.

Platform look-ups and ownCloud answers are inputs of the `Request`: the two
capabilities, the teacher setting, the activity's group mode and the user's
group, the course-module ids of the pending creation tasks, the request flags,
the submitted name, the ownCloud user id, the share and rename answers, whether
the user holds a token, the login address and the page's own address.

Some behaviours of the page are easy to misread; the model follows the code:

- Both remote paths are built from the course-module id `id`, not from the
  activity instance id (view.php:30, 103). The events carry the instance id
  (view.php:224, 277).
- The rename is given the course-module id as the new name (view.php:214).
- Generation is not gated by the access law: a generate request with a stored
  name and no shown link calls ownCloud even for a user without access, such as
  an admin of an activity that keeps teachers out, or anyone before the folders
  exist (view.php:193). When share and rename succeed, that user is shown the
  new link: its rendering (view.php:219) is not gated by the access law, unlike
  the stored link (view.php:182). `RequestLaws.GenerationIgnoresAccess` states
  this.
- The page never stores a generated link; it only reads `cf_link id`
  (view.php:180). A repeated generate request runs the remote operation again.
  `RequestLaws.GenerationRepeats` and `RequestLaws.OnlyNameKeyChanges` state this.
- Having no name to generate with clears `$generate`, so the page falls back to
  the no-link display (view.php:198-200).

## Model

| member | source | states |
|---|---|---|
| `Decimal.NatToString` | view.php:103 | the id in a path or key is spelled as a non-empty string of digits with no leading zero |
| `Decimal.ValueOfNatToString` | view.php:103 | reading back the decimal spelling of a number gives the number |
| `Decimal.NatToStringInjective` | view.php:103 | distinct ids are spelled differently |
| `Preferences.Updated` | view.php:67 | writing a value sets that key, writing null unsets it, and every other key keeps its value |
| `Preferences.KeysDistinct` | view.php:180-191 | the link key and the name key of a course module differ, and neither equals a key of another course module |
| `Preferences.PreferenceStore.Set` | view.php:85 | `set_user_preference` changes exactly the given key; null removes it |
| `Provisioning.FoldersCreated` | view.php:130-142 | the folders count as created iff no pending creation task names the course module; with no pending task they are created |
| `Paths.ResolvePaths` | view.php:99-126 | group mode is on iff the mode is not 0; outside group mode or without a group both paths are `"/" + id`; in a group the share path is `"/" + id + "/" + group` and the rename path `"/" + group` |
| `Paths.SharePathInjective` | view.php:103-125 | distinct (course module, group) pairs get distinct share paths, so no user is shared another group's folder or the whole activity folder in place of a group folder |
| `Paths.FinalPathIsTail` | view.php:119-124 | in a group the rename path is the group part of the share path; otherwise both paths coincide |
| `Access.HasAccess` | view.php:176-178 | nobody has access before the folders exist; once they exist a non-admin always has access and an admin has it iff teachers are allowed |
| `Access.HasLink` | view.php:182 | a link is shown only to a user with access and only when it is present and non-empty |
| `Saga.CallsChannels` | view.php:204-214 | the token is read and the share created first; the rename follows iff the share succeeded; the calls render nothing |
| `Saga.ReportChannels` | view.php:216-239 | a successful rename shows the new link and triggers one link-generated event; a failed share reports the 'shared' error, a failed rename the 'renamed' error with the answer's content |
| `Saga.RunChannels` | view.php:204-239 | the rename follows only a successful share; the new link and one link-generated event appear iff both calls succeeded; each failure is reported as its own error, and nothing else is rendered |
| `Workflow.View` | view.php:58-87 | the page run on the preference store produces exactly the actions and the store that `Respond` gives |
| `Workflow.Render` | view.php:129-280 | the page from the folder scan onwards produces the `Page` of the decisions on the store it reads |
| `Workflow.Opening` | view.php:99-188 | the paths, the scan, the notice, the overview and the stored link produce the first three parts of that `Page` and the decided link flag and paths |
| `Workflow.ShareAndRename` | view.php:204-239 | the nested share and rename branches produce the actions of `Saga.Run` |
| `RequestLaws.DecisionLaws` | view.php:129-243 | the folders exist iff no pending task names the module; the overview needs folders, an admin and group mode; the access law; a link is shown iff the stored one is non-null and access holds; generation runs iff no link was shown, it was asked for and a name is stored; the no-link display runs iff no link was shown and no generation was asked for or no name is stored |
| `RequestLaws.PageOn` | view.php:155-280 | the page filtered on any channel is its six parts filtered one by one |
| `RequestLaws.StoppedChannel` | view.php:58-76 | a request without view permission shows only the no-permission notice; a reset only redirects; a logout only logs out of ownCloud and redirects; a request stopped by the permission check or the logout leaves the store as it was, a submitted name included |
| `RequestLaws.NoticesOnPage` | view.php:155-161 | the page's only notice is the not-yet-created notice, shown iff the folders do not exist |
| `RequestLaws.OverviewOnPage` | view.php:164-173 | the group overview is rendered iff it is due |
| `RequestLaws.AccessLinksOnPage` | view.php:184-219 | the stored link is shown when due, and the link of a generation when both remote calls succeeded |
| `RequestLaws.RemoteCallsOnPage` | view.php:193-214 | ownCloud is called only when generation runs; then the token fetch and the share, and the rename with the course-module id as name iff the share succeeded |
| `RequestLaws.ErrorsOnPage` | view.php:209-239 | the 'shared' error appears iff generation ran and the share failed; the 'renamed' error iff the share succeeded and the rename failed |
| `RequestLaws.EventsOnPage` | view.php:216-280 | link-generated is triggered exactly once when generation ran and both calls succeeded, never otherwise, then module-viewed |
| `RequestLaws.AffordancesOnPage` | view.php:243-272 | the name-and-links or the name form appear iff the no-link display is due, and the form exactly when no name is stored |
| `RequestLaws.ResetClearsNameOnly` | view.php:65-69 | a reset removes the name key and keeps the link key and every other key, then redirects without logout, name saving or generation |
| `RequestLaws.OnlyNameKeyChanges` | view.php:65-86 | a request changes no key but its own name key; in particular the link is never written |
| `RequestLaws.NameSubmission` | view.php:78-87 | a submitted name is stored under the name key and read back by the page; without a submission or reset the store is unchanged |
| `RequestLaws.NamelessGenerationFallsBack` | view.php:193-200 | a generate request without a stored name makes no remote call, clears the generate flag and shows the name form |
| `RequestLaws.GenerationIgnoresAccess` | view.php:193-219 | with a stored name and no link shown, a generate request calls ownCloud even for a user without access, and shows that user the new link when share and rename succeed |
| `RequestLaws.GenerationRepeats` | view.php:180-241 | a generated link is not cached, so the same request repeated on the resulting store generates again |
| `RequestLaws.FirstLink` | view.php:193-228 | a non-admin with folders created, no stored link and a stored name, whose share and rename succeed, is shown the new link and triggers link-generated once |

## Left out

- Page set-up, `require_login`, the page header, heading and footer, and the HTML
  written around the renderings (view.php:27-33, 44, 148-152, 282): platform glue.
  Renderings are actions in the output sequence.
- The capability, database, group and course look-ups (`has_capability`,
  `get_record`, `groups_get_activity_groupmode`, `groups_get_activity_group`,
  `groups_get_all_groups`): foreign calls, modelled as request inputs. The group
  list of the overview table is not modelled; the table is one action.
- The teacher setting is compared loosely with `true` (view.php:176); the model
  takes its truth value as a boolean input.
- The task query and the `json_decode` of each task's payload (view.php:130-136):
  each pending creation task is given by its course-module id.
- The ownCloud access object (view.php:49-55): token fetch, `generate_share`,
  `rename`, `logout_user`, `user_loggedin` and `get_login_url` are network I/O.
  Their answers are inputs; the calls are logged as actions.
- The failure detail of a failed share is the falsy status itself; the model
  reports it as the empty string.
- The name form widget and the event framework (view.php:79, 227-228, 279-280):
  a submitted name is an optional input, events are actions in the output.
- `notice` and `redirect` end the request; the model ends the action sequence
  there and does not model the page that follows.
- Ids are modelled as non-negative numbers: course-module, instance and group ids
  are positive in Moodle, and a negative `id` would not name a course module.
- Concurrency between requests of the same user is not modelled: one request is
  one sequential run.
