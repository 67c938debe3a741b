# pyproject-local-kernel: project detection and environment resolution, in Dafny

pyproject-local-kernel is a Jupyter kernel provisioner. It starts the kernel
inside the Python environment of the project that the notebook belongs to.

Given the notebook's directory, it works as follows:

1. It finds the nearest `pyproject.toml`.
2. It classifies the project by the tool that manages it (Rye, Pdm, Poetry,
   Hatch or uv), or by the `[tool.pyproject-local-kernel]` table (`python-cmd`,
   `use-venv`, `sanity-check`).
3. It works out the command that starts Python in that environment. For a
   virtual environment it also works out the bin directory to put in front of
   `PATH`.

The provisioner turns that into the kernel's argv. When something goes wrong,
it starts a fallback kernel instead, which shows the error.

This project models that engine and proves its rules. The repository holds
three iterations of the detection logic, and their behaviour differs, so each
is its own module:

| module | file | models |
|---|---|---|
| `Identify` | identify_final.dfy | the final classifier and resolver (`_identify.py`) |
| `ConfigData` | configdata_final.dfy | the final configuration table (`_configdata.py`): key aliasing, shell-splitting, type check, in-place merge |
| `EarlyIdentify` | identify_early.dfy | the earlier classifier and `get_python_cmd` (`__init__.py`) |
| `EarlyConfigData` | configdata_early.dfy | the earlier configuration table (`configdata.py`): hyphenated keys only, raw `python-cmd`, `or`-merge |
| `OldestIdentify` | identify_oldest.dfy | the oldest classifier (`__main__.py`) |
| `Provisioner` | provisioner.dfy | `_pplk_pre_launch`, `pre_launch`, the sanity-check skip rule and `_get_environment` |
| `JpyVars` | jpy_vars.dfy | the positive-integer reading of `JPY_PARENT_PID` / `JPY_INTERRUPT_EVENT` |

The later iterations share several supporting modules:

- `ProjectKinds` (project_kinds.dfy): the kind table, the fallback, the hatch answer, the tool predicates and the ordered first match.
- `DotKeys` (dotkey.dfy): `get_dotkey` / `has_dotkey`.
- `Paths` (paths.dfy): the pathlib subset, the upward search and the venv layout.
- `TypeSchema` (type_schema.dfy): `_type_check` / `_type_name`.
- `Shlex` (shlex.dfy): `shlex.split`.
- `PyValues` (py_values.dfy): Python values, exceptions, `str.split` / `join`.

What the code reads from outside is passed in as parameters:

- whether a path exists (`Path.exists()`, which also holds for a directory named `pyproject.toml`);
- the parsed `pyproject.toml`, or the reason it could not be read;
- `os.name == "nt"`;
- whether `uv` / `rye` are on `PATH`;
- the result of `hatch env find`;
- the process environment;
- the result of the sanity-check run;
- `sys.executable`;
- `sys.platform`.

The parts that change state in place are classes:

- `ConfigData.Config`, whose `merge_with` fills its own fields;
- `Identify.EnvDict`, the environment dict that `update_environment` edits;
- `Provisioner.KernelSpec`, whose argv is overwritten;
- `Provisioner.PyprojectKernelProvisioner`;
- `JpyVars.JpyVars`.

The loops are methods proved against a function. These are `get_dotkey`, the
upward search, and the two `from_dict` loops.

## Model

| member | source | states |
|---|---|---|
| ProjectKinds.KindCommand | src/pyproject_local_kernel/_identify.py:49-60 | exactly the five tool kinds have a command; each runs `python` through the tool's `run`, in three words except uv's |
| ProjectKinds.FallbackKind | src/pyproject_local_kernel/_identify.py:112-118 | uv if uv is on PATH, else Rye if rye is, else Unknown |
| ProjectKinds.FallbackCommand | src/pyproject_local_kernel/_identify.py:105-109 | the fallback has a command exactly when uv or rye was found, and uv is preferred |
| ProjectKinds.HatchVenv | src/pyproject_local_kernel/_identify.py:248-260 | hatch's output is stripped; OSError gives None; other subprocess errors propagate |
| ProjectKinds.StripEmpty | src/pyproject_local_kernel/_identify.py:257 | `strip()` leaves nothing exactly when the text is all whitespace |
| ProjectKinds.StripIsInfix | src/pyproject_local_kernel/_identify.py:257 | `strip()` returns a contiguous slice of its input |
| ProjectKinds.RyeManaged | src/pyproject_local_kernel/_identify.py:163 | `tool.rye.managed` must be exactly the boolean True |
| ProjectKinds.PoetryNamed | src/pyproject_local_kernel/_identify.py:166-167 | Poetry needs a truthy `tool.poetry.name` |
| ProjectKinds.ProjectTableMeaning | src/pyproject_local_kernel/_identify.py:182-186 | a project table is a name plus a version or a dynamic list, with `or` short-circuiting |
| ProjectKinds.FirstMatch | src/pyproject_local_kernel/_identify.py:211-213 | the result is the first kind whose predicate holds; None iff none holds; a raising predicate stops the search |
| ProjectKinds.FirstMatchPicks | src/pyproject_local_kernel/_identify.py:189-195 | a kind that holds, with every earlier one failing, is the one reported |
| DotKeys.Walk | src/pyproject_local_kernel/_identify.py:147-155 | an empty key is the root itself; a walk that cannot subscript names a value that is not a table |
| DotKeys.WalkAppend | src/pyproject_local_kernel/_identify.py:150-152 | walking `a.b` walks `a`, then `b` from there |
| DotKeys.WalkStep | src/pyproject_local_kernel/_identify.py:150-154 | one subscript step: found, missing key, or not subscriptable |
| DotKeys.WalkStops | src/pyproject_local_kernel/_identify.py:153-154 | a missing key ends the walk whatever parts follow |
| DotKeys.DotKey | src/pyproject_local_kernel/_identify.py:147-155 | the value at the key, the default for a missing key, TypeError when a non-dict is subscripted |
| DotKeys.HasDotKey | src/pyproject_local_kernel/_identify.py:158-159 | true iff the key leads to a value other than None |
| DotKeys.GetDotkey | src/pyproject_local_kernel/_identify.py:147-155 | the loop over `dotkey.split(".")` computes DotKey |
| Paths.ParsePath | src/pyproject_local_kernel/_identify.py:89 | `Path(s)` keeps only normal components; absolute iff it starts at the root separator |
| Paths.Join | src/pyproject_local_kernel/_identify.py:89 | `a / b` appends the components of a relative `b`; an absolute `b` replaces `a` |
| Paths.Parent | src/pyproject_local_kernel/_identify.py:91 | the parent drops the last component; the root is its own parent |
| Paths.RenderParse | src/pyproject_local_kernel/_identify.py:134 | `Path(str(p)) == p` for a normal path |
| Paths.Candidates | src/pyproject_local_kernel/_identify.py:139 | `[cwd, *cwd.parents]`: cwd, then each parent in turn, ending at the root |
| Paths.ManifestIn | src/pyproject_local_kernel/_identify.py:141 | the manifest's parent is the directory searched |
| Paths.FirstManifest | src/pyproject_local_kernel/_identify.py:140-144 | a manifest it finds exists and sits in one of the candidate directories |
| Paths.FirstManifestNearest | src/pyproject_local_kernel/_identify.py:140-144 | None iff no candidate holds a manifest; otherwise the manifest of the first candidate that has one |
| Paths.FindPyprojectFile | src/pyproject_local_kernel/_identify.py:137-144 | the search loop returns Locate: the nearest manifest upward |
| Paths.VenvBinPython | src/pyproject_local_kernel/_identify.py:241-245 | the interpreter lies two levels below the venv, in `bin` (`Scripts` on Windows), named `python` (`python.exe`) |
| PyValues.JoinSplit | src/pyproject_local_kernel/_identify.py:132-134 | joining the split PATH entries gives back the PATH |
| PyValues.SplitJoin | src/pyproject_local_kernel/_identify.py:132-134 | splitting a join of separator-free entries gives back the entries |
| PyValues.SplitOn | src/pyproject_local_kernel/_identify.py:132 | `str.split(sep)` never returns an empty list and its pieces hold no separator |
| PyValues.PlainStrRepr | src/pyproject_local_kernel/_configdata.py:71 | `repr` of printable ASCII without quotes or backslashes is the string in single quotes |
| PyValues.EscapeRepr | src/pyproject_local_kernel/_configdata.py:71 | `repr` writes a control character and `\xa0` as a two-digit `\xNN` escape |
| TypeSchema.UnionAccepts | src/pyproject_local_kernel/_configdata.py:22-23 | a Union/Optional accepts exactly what one member accepts |
| TypeSchema.AnyMemberExists | src/pyproject_local_kernel/_configdata.py:23 | `any(...)` over the members is an existential |
| TypeSchema.PythonCmdAccepts | src/pyproject_local_kernel/_configdata.py:15-27 | `python_cmd` accepts None, a string or a list of strings, nothing else |
| TypeSchema.UseVenvAccepts | src/pyproject_local_kernel/_configdata.py:15-27 | `use_venv` accepts None or a string |
| TypeSchema.SanityCheckAccepts | src/pyproject_local_kernel/_configdata.py:15-27 | `sanity_check` accepts None or a bool |
| TypeSchema.FieldTypeNames | src/pyproject_local_kernel/_configdata.py:30-39 | unions render as `A \| B`, lists as `list[T]`, NoneType as `None` |
| Shlex.SplitRaisesValueError | src/pyproject_local_kernel/_configdata.py:93 | `shlex.split` only ever fails with ValueError |
| Shlex.LexRaisesValueError | src/pyproject_local_kernel/_configdata.py:93 | the same for every suffix of the input |
| Shlex.PlainSplit | src/pyproject_local_kernel/_configdata.py:93 | without quotes or backslashes, the tokens are the whitespace-separated words |
| Shlex.BlankSplit | src/pyproject_local_kernel/_configdata.py:93 | an empty or all-blank string gives no tokens |
| Shlex.SingleWord | src/pyproject_local_kernel/_configdata.py:93 | an ordinary word is one token |
| Shlex.QuotedToken | src/pyproject_local_kernel/_configdata.py:93 | a single-quoted string is one token without its quotes |
| Shlex.SplitAppend | src/pyproject_local_kernel/_configdata.py:93 | the tokens of `a b` are those of `a` followed by those of `b` |
| Shlex.QuotedSegment | src/pyproject_local_kernel/_configdata.py:93 | `uv run --with 'x y' python`-shaped commands split into the expected five tokens |
| Shlex.UnbalancedQuoteExample | src/pyproject_local_kernel/_configdata.py:93 | an unclosed quote raises `ValueError("No closing quotation")` |
| ConfigData.FieldKeys | src/pyproject_local_kernel/_configdata.py:11-12 | every field's table key is its name with `_` replaced by `-` |
| ConfigData.FieldShownTypes | src/pyproject_local_kernel/_configdata.py:70-71 | the type shown in an error is the repr of `_type_name` of the annotation |
| ConfigData.LookupField | src/pyproject_local_kernel/_configdata.py:46-52 | the hyphenated key is tried first, then the field's own name |
| ConfigData.CollectedFields | src/pyproject_local_kernel/_configdata.py:45-56 | kwargs hold exactly the found fields, each under the key it was found under; used keys are those keys |
| ConfigData.CollectFields | src/pyproject_local_kernel/_configdata.py:42-56 | the field loop computes Collected |
| ConfigData.DuplicateKeyWarned | src/pyproject_local_kernel/_configdata.py:46-58 | with both spellings present the hyphenated value wins and the other key is warned about |
| ConfigData.UnknownKeysIgnored | src/pyproject_local_kernel/_configdata.py:57-59 | unknown keys are warned about and do not change the result |
| ConfigData.OnlyPythonCmd | src/pyproject_local_kernel/_configdata.py:45-56 | a table with only `python-cmd` passes just `python_cmd` |
| ConfigData.Normalized | src/pyproject_local_kernel/_configdata.py:91-94 | a string is replaced by its shell words; anything else is kept |
| ConfigData.Construct | src/pyproject_local_kernel/_configdata.py:62-94 | shlex's error comes first; accepted iff all three fields pass their checks; otherwise the first failing field's TypeError; an accepted config stores the given `use_venv`/`sanity_check` and a list of strings or None as `python_cmd` |
| ConfigData.PythonCmdNormalized | src/pyproject_local_kernel/_configdata.py:87-94 | after construction `python_cmd` is the shell words of a string or the given list |
| ConfigData.BlankPythonCmdIsEmptyList | src/pyproject_local_kernel/_configdata.py:91-93 | a blank `python-cmd` string becomes the empty command list, not None |
| ConfigData.UnbalancedPythonCmd | src/pyproject_local_kernel/_configdata.py:91-93 | shlex's error propagates out of `from_dict` unchanged |
| ConfigData.WrongTypeRejected | src/pyproject_local_kernel/_configdata.py:62-71 | a wrongly typed `python-cmd` alone in the table raises the TypeError naming key, repr and `'str \| list[str] \| None'` |
| ConfigData.FieldValue | src/pyproject_local_kernel/_configdata.py:45-56 | a field gets the value found under either spelling, else the default None |
| ConfigData.TableArgs | src/pyproject_local_kernel/_configdata.py:42-59 | what `Config(**kwargs)` sees for each field is that field's value in the table |
| ConfigData.WrongPythonCmdRejected | src/pyproject_local_kernel/_configdata.py:62-71 | a wrongly typed `python_cmd`, after normalization, raises its TypeError whatever else the table holds |
| ConfigData.WrongUseVenvRejected | src/pyproject_local_kernel/_configdata.py:62-71 | a wrongly typed `use_venv` raises its TypeError once `python_cmd` passed |
| ConfigData.WrongSanityCheckRejected | src/pyproject_local_kernel/_configdata.py:62-71 | a wrongly typed `sanity_check` raises its TypeError once the other two passed |
| ConfigData.UseVenvIntRejected | src/pyproject_local_kernel/_configdata.py:71 | `{"use-venv": 1}` raises `invalid config use-venv = 1, expected value of type 'str \| None'` |
| ConfigData.AcceptedTable | src/pyproject_local_kernel/_configdata.py:62-94 | a table whose values pass their checks is accepted and stores them, absent fields unset |
| ConfigData.NotATable | src/pyproject_local_kernel/_configdata.py:49 | a non-table section raises TypeError |
| ConfigData.Merge | src/pyproject_local_kernel/_configdata.py:96-101 | a field of `self` keeps its value unless it is None, even False; None fields take `other`'s |
| ConfigData.MergeLaws | src/pyproject_local_kernel/_configdata.py:96-101 | merging is associative and idempotent, with the empty config as identity |
| ConfigData.Config.Make | src/pyproject_local_kernel/_configdata.py:62-94 | the object built is the accepted config, or the error raised |
| ConfigData.Config.FromDict | src/pyproject_local_kernel/_configdata.py:42-59 | `from_dict` builds the config of the table, or raises its error |
| ConfigData.Config.MergeWith | src/pyproject_local_kernel/_configdata.py:96-101 | updates `self` in place to Merge of the old values and returns `self` |
| EarlyConfigData.FieldKeys | src/pyproject_local_kernel/configdata.py:42 | table keys are the skewer-case field names |
| EarlyConfigData.Checked | src/pyproject_local_kernel/configdata.py:41-51 | kwargs hold a field iff its hyphenated key is present, with that value |
| EarlyConfigData.CheckedStops | src/pyproject_local_kernel/configdata.py:48-49 | the first TypeError ends the loop |
| EarlyConfigData.FromDict | src/pyproject_local_kernel/configdata.py:37-54 | the loop computes FromDictSpec and warns about every key but the hyphenated field keys |
| EarlyConfigData.UnderscoreKeyIgnored | src/pyproject_local_kernel/configdata.py:41-53 | an underscored key is never read and is warned about |
| EarlyConfigData.StringKeptRaw | src/pyproject_local_kernel/configdata.py:50-54 | a string `python-cmd` is stored unsplit |
| EarlyConfigData.WrongPythonCmdRejected | src/pyproject_local_kernel/configdata.py:47-49 | a wrongly typed `python-cmd` raises its TypeError |
| EarlyConfigData.WrongUseVenvRejected | src/pyproject_local_kernel/configdata.py:41-49 | a wrongly typed `use-venv` raises its TypeError once `python-cmd` passed |
| EarlyConfigData.AcceptedTable | src/pyproject_local_kernel/configdata.py:41-54 | a table whose present values pass their checks is accepted |
| EarlyConfigData.PythonCmdNormalized | src/pyproject_local_kernel/configdata.py:66-69 | a string is shell-split, a list returned unchanged, None stays None |
| EarlyConfigData.MergeWith | src/pyproject_local_kernel/configdata.py:71-73 | each field is `self`'s if truthy, else `other`'s |
| EarlyConfigData.MergeDropsFalsy | src/pyproject_local_kernel/configdata.py:73 | an empty command in `self` is replaced by `other`'s |
| EarlyConfigData.MergeLaws | src/pyproject_local_kernel/configdata.py:71-73 | the `or`-merge is associative and idempotent, with the empty config as left identity |
| Identify.IdentifyToml | src/pyproject_local_kernel/_identify.py:198-216 | a non-dict is InvalidData with "Could not read pyproject.toml"; never NoProject; InvalidData iff no config iff an error context |
| Identify.ProjectTableRequired | src/pyproject_local_kernel/_identify.py:162-186 | every tool predicate but Poetry's needs the project table |
| Identify.RyeNeedsTrue | src/pyproject_local_kernel/_identify.py:162-163 | Rye needs the project table and `tool.rye.managed` exactly True |
| Identify.CustomWins | src/pyproject_local_kernel/_identify.py:207-208 | a set `python_cmd` gives CustomConfiguration whatever else is present |
| Identify.UseVenvWins | src/pyproject_local_kernel/_identify.py:209-210 | otherwise a set `use_venv` gives UseVenv before any tool predicate |
| Identify.ConfigErrorIsInvalidData | src/pyproject_local_kernel/_identify.py:201-206 | a TypeError becomes InvalidData with "Error on reading pyproject.toml: " and the message; other errors propagate |
| Identify.UnbalancedQuoteEscapes | src/pyproject_local_kernel/_identify.py:201-206 | a `python-cmd` with an unclosed quote makes `identify` raise, not classify |
| Identify.ToolOrder | src/pyproject_local_kernel/_identify.py:189-195 | Rye, Pdm, Poetry, Hatch, Uv are tried in that order and the first that holds wins |
| Identify.NoToolMatch | src/pyproject_local_kernel/_identify.py:214-216 | no match: InvalidData "No valid project table or configuration" without a project table, else Unknown |
| Identify.IdentifySpec | src/pyproject_local_kernel/_identify.py:219-238 | no manifest gives NoProject with no path; otherwise the path is the manifest and the kind is never NoProject |
| Identify.Identify | src/pyproject_local_kernel/_identify.py:219-238 | `identify` with the search loop computes IdentifySpec |
| Identify.NearestManifest | src/pyproject_local_kernel/_identify.py:137-144 | a detection's manifest lies in cwd or an ancestor, and no nearer directory has one |
| Identify.UnreadableIsInvalid | src/pyproject_local_kernel/_identify.py:233-236 | an unreadable manifest gives InvalidData with its path and the error text |
| Identify.Resolve | src/pyproject_local_kernel/_identify.py:75-109 | hatch errors propagate; a bin directory is set iff a venv is used; an empty command only from an empty `python-cmd` |
| Identify.ResolveFrom | src/pyproject_local_kernel/_identify.py:86-109 | once `use_venv` is settled: a bin directory iff `use_venv` is set; an empty command only from an empty `python-cmd` |
| Identify.GetPythonCmd | src/pyproject_local_kernel/_identify.py:71-73 | the command of `resolve`, or None |
| Identify.ResolvePrecedence | src/pyproject_local_kernel/_identify.py:80-103 | `use_venv` beats `python_cmd`, which beats the kind's command (`hatch run python` included), with or without the hatch workaround except for a Hatch project with it |
| Identify.FallbackRules | src/pyproject_local_kernel/_identify.py:105-109 | the fallback only when allowed and not NoProject/InvalidData; uv then rye then None |
| Identify.HatchQuirk | src/pyproject_local_kernel/_identify.py:79-84 | a non-blank hatch answer is the venv; blank or OSError changes nothing; other errors raise |
| Identify.HatchAnswerUsed | src/pyproject_local_kernel/_identify.py:79-92 | a non-blank hatch answer becomes the virtual environment the command runs from |
| Identify.HatchAnswerIgnored | src/pyproject_local_kernel/_identify.py:79-84 | a blank hatch answer or an OSError resolves exactly as without the hatch quirk |
| Identify.VenvLayout | src/pyproject_local_kernel/_identify.py:86-92 | the command is `<manifest dir>/<venv>/bin/python` (Windows: `Scripts\python.exe`) and its parent is the bin directory |
| Identify.UpdateEnvironment | src/pyproject_local_kernel/_identify.py:127-134 | without a bin directory nothing changes; otherwise only PATH changes, to the bin directory prepended |
| Identify.PathEntries | src/pyproject_local_kernel/_identify.py:131-134 | the new PATH's entries are the bin directory followed by the old (or default) entries |
| EarlyIdentify.IsCustom | src/pyproject_local_kernel/__init__.py:152-159 | a string becomes a one-element list; a list is kept; any other value counts as unset |
| EarlyIdentify.IsUseVenv | src/pyproject_local_kernel/__init__.py:165-169 | only a string `use-venv` counts |
| EarlyIdentify.IdentifyToml | src/pyproject_local_kernel/__init__.py:181-193 | a dict is never InvalidData; Custom iff a command, UseVenv iff a venv |
| EarlyIdentify.StringIsOneElement | src/pyproject_local_kernel/__init__.py:152-155 | a string command is one element, not shell-split |
| EarlyIdentify.ListTakenAsIs | src/pyproject_local_kernel/__init__.py:152-159 | a list command is kept with unchecked elements |
| EarlyIdentify.WrongTypesIgnored | src/pyproject_local_kernel/__init__.py:156-158 | wrongly typed settings leave the project neither Custom nor UseVenv |
| EarlyIdentify.ToolOrder | src/pyproject_local_kernel/__init__.py:172-193 | tools in the order Rye, Pdm, Poetry, Hatch, Uv without a project table; none gives Unknown |
| EarlyIdentify.IdentifySpec | src/pyproject_local_kernel/__init__.py:196-211 | no manifest gives NoProject with no path; a read error gives InvalidData with the path |
| EarlyIdentify.InvalidOnlyFromBadManifest | src/pyproject_local_kernel/__init__.py:181-183 | InvalidData only comes from an unreadable or non-table manifest |
| EarlyIdentify.GetPythonCmd | src/pyproject_local_kernel/__init__.py:77-104 | the fallback applies only when the kind has no command and fallback is allowed |
| EarlyIdentify.CommandPrecedence | src/pyproject_local_kernel/__init__.py:81-98 | venv path, then the configured command as given, then the kind's command, for either `allow_hatch_workaround` except a Hatch project with it on |
| EarlyIdentify.FallbackRules | src/pyproject_local_kernel/__init__.py:100-112 | uv, then rye, then None; never for NoProject/InvalidData |
| OldestIdentify.KindCommand | src/pyproject_local_kernel/__main__.py:52-61 | Rye, Poetry, Pdm and Hatch only, each `<tool> run python` |
| OldestIdentify.GetPythonCmd | src/pyproject_local_kernel/__main__.py:70-73 | the configured command, else the kind's, else `rye run python` |
| OldestIdentify.IsCustom | src/pyproject_local_kernel/__main__.py:114-116 | any value at `python-cmd`, of whatever type |
| OldestIdentify.IdentifyToml | src/pyproject_local_kernel/__main__.py:127-136 | the kind slot is True exactly when a command is configured; never CustomConfiguration |
| OldestIdentify.AnyValueIsCustom | src/pyproject_local_kernel/__main__.py:130-132 | a configured value of any type gives True with that value |
| OldestIdentify.ToolOrder | src/pyproject_local_kernel/__main__.py:119-136 | Rye, Pdm, Poetry, Hatch in that order; none gives Unknown |
| OldestIdentify.IdentifySpec | src/pyproject_local_kernel/__main__.py:139-158 | the detection records the directory asked about, not the manifest |
| OldestIdentify.AlwaysACommand | src/pyproject_local_kernel/__main__.py:70-73 | whatever `identify` returns has a command, never None |
| OldestIdentify.RyeDefault | src/pyproject_local_kernel/__main__.py:73 | kinds without a tool run through `rye run python` |
| Provisioner.ArgStrings | src/pyproject_local_kernel/provisioner.py:86 | `map(str, cmd)`, element by element |
| Provisioner.Usable | src/pyproject_local_kernel/provisioner.py:67-75 | a usable detection has a path and is not InvalidData, and carries the merged config; no path raises the no-pyproject message; InvalidData raises it followed by `\nReason: ` and the error context (`None` when absent) |
| Provisioner.LaunchPlan | src/pyproject_local_kernel/provisioner.py:60-79 | a plan always has a manifest and a valid kind |
| Provisioner.SanityOutcome | src/pyproject_local_kernel/provisioner.py:106-125 | skipped for uv outside a venv; failures are RuntimeErrors starting with the sanity message |
| Provisioner.Finish | src/pyproject_local_kernel/provisioner.py:81-91 | argv is `str` of the command plus the kernel args; it fails only when the enabled check fails |
| Provisioner.GetEnvironment | src/pyproject_local_kernel/provisioner.py:150-158 | the process environment is always copied; `env` only when asked |
| Provisioner.PyprojectKernelProvisioner.SanityCheck | src/pyproject_local_kernel/provisioner.py:106-125 | runs in a marked copy of the environment and returns SanityOutcome |
| Provisioner.PyprojectKernelProvisioner.PlanLaunch | src/pyproject_local_kernel/provisioner.py:55-79 | the config objects, merge and checks compute LaunchPlan |
| Provisioner.PyprojectKernelProvisioner.ApplyPlan | src/pyproject_local_kernel/provisioner.py:81-91 | argv replaced, PATH of the (possibly new) env updated, then the sanity check |
| Provisioner.PyprojectKernelProvisioner.PplkPreLaunch | src/pyproject_local_kernel/provisioner.py:52-91 | raises exactly what PreLaunchSpec raises; argv and env untouched when no plan; a caller's env is edited in place |
| Provisioner.PyprojectKernelProvisioner.PreLaunch | src/pyproject_local_kernel/provisioner.py:81-102 | success returns the env of PreLaunchSpec (the caller's dict or a fresh one); OSError/RuntimeError give the fallback-kernel argv and return the caller's env object, which already carries the updated PATH when the plan succeeded and is untouched otherwise; other errors propagate and leave argv unchanged |
| Provisioner.MissingArgsFirst | src/pyproject_local_kernel/provisioner.py:63-64 | empty kernel args fail before detection |
| Provisioner.NoProjectMessage | src/pyproject_local_kernel/provisioner.py:71-72 | no manifest fails with the no-pyproject message, which the fallback argv carries |
| Provisioner.UnreadableReason | src/pyproject_local_kernel/provisioner.py:74-75 | an unreadable manifest fails with the message and a `Reason:` line |
| Provisioner.InvalidDataReason | src/pyproject_local_kernel/provisioner.py:74-75 | any InvalidData detection fails the launch with the message, `\nReason: ` and its error context |
| Provisioner.NoEnvironmentRaises | src/pyproject_local_kernel/provisioner.py:77-79 | when `resolve` returns None the launch fails with the no-pyproject message |
| Provisioner.UnknownWithoutFallback | src/pyproject_local_kernel/provisioner.py:77-79 | an unconfigured Unknown project on a host with neither uv nor rye fails with the no-pyproject message |
| Provisioner.ProjectConfigWins | src/pyproject_local_kernel/provisioner.py:60-67 | the project's settings win; the spec's `use_venv` only applies to the use-venv kernel |
| Provisioner.UseVenvKernelDefault | src/pyproject_local_kernel/provisioner.py:60-77 | the use-venv kernel runs `.venv` even for a project with `python-cmd` |
| Provisioner.UvNotChecked | src/pyproject_local_kernel/provisioner.py:107-110 | a uv command outside a venv is never checked |
| Provisioner.SanityFailures | src/pyproject_local_kernel/provisioner.py:114-125 | launch failure and non-zero exit give their two messages |
| Provisioner.KernelPathFirst | src/pyproject_local_kernel/provisioner.py:81-83 | the venv bin directory becomes the kernel's first PATH entry |
| JpyVars.IntParseFromText | src/pyproject_local_kernel/jpy_vars.py:22-30 | positive iff the text is non-empty and parses to a positive integer, which is returned |
| JpyVars.ParsePositive | src/pyproject_local_kernel/jpy_vars.py:22-27 | a positive decimal number, with or without `+`, is read back as itself |
| JpyVars.NonPositiveIsZero | src/pyproject_local_kernel/jpy_vars.py:22-30 | negative numbers, zero and a missing variable give 0 |
| JpyVars.ParseSignedDecimal | src/pyproject_local_kernel/jpy_vars.py:25 | a signed decimal parses to its signed value |
| JpyVars.ParseSignedDigits | src/pyproject_local_kernel/jpy_vars.py:25 | well-formed digits after a sign parse to the signed value of the digits |
| JpyVars.ParseDigits | src/pyproject_local_kernel/jpy_vars.py:25 | well-formed digits parse to their value |
| JpyVars.ParseDecimal | src/pyproject_local_kernel/jpy_vars.py:25 | a number's decimal text parses to that number |
| JpyVars.PositiveRead | src/pyproject_local_kernel/jpy_vars.py:22-27 | text that parses to a positive number is read as that number |
| JpyVars.ZeroIsZero | src/pyproject_local_kernel/jpy_vars.py:22-30 | the text `0` is read as 0 |
| JpyVars.SeparatorNotSkipped | src/pyproject_local_kernel/jpy_vars.py:25-30 | a number after one of `\x1c`..`\x1f` is a ValueError for `int()` and reads as 0 |
| JpyVars.SpaceSkipped | src/pyproject_local_kernel/jpy_vars.py:25-27 | spaces, tabs and newlines around a positive number are skipped |
| JpyVars.SpacesAround | src/pyproject_local_kernel/jpy_vars.py:25 | `int()` drops leading and trailing ASCII whitespace around the text it reads |
| JpyVars.JpyVars.constructor | src/pyproject_local_kernel/jpy_vars.py:39-40 | the parent pid is read; the interrupt event only on win32 |

## Left out

- File system: `Path.resolve()` and `exists()` are inputs. The search receives the resolved directory and a `pathExists` predicate standing for `exists()`, so symlinks and relative paths are not modelled.
- TOML: `tomli.load` is not modelled. The document arrives parsed, or as a read error carrying its message.
- Paths: no drive letters or UNC roots. On Windows only `\` and `/` are modelled as separators.
- Dictionaries: the `repr` of a dict in a TypeError message is written `{...}`, because a `map` has no key order.
- `shlex.split`: only POSIX mode with whitespace, single and double quotes and backslash escapes. Comments, punctuation and non-ASCII whitespace are not modelled.
- `str.strip`: only ASCII whitespace (space, `\t` to `\r`, and `\x1c` to `\x1f`) is stripped from hatch's output. Non-ASCII whitespace such as `\x85` or `\xa0` is not modelled.
- Subprocesses are oracles: `hatch env find`, the sanity-check run, and `shutil.which` for uv and rye. The oracles' working directory, timeout and `PATH` lookup are not modelled.
- The sanity check's "could not launch" case is an `OSError` message string, not the exception object.
- Logging and the debug messages are not modelled. Neither is the `print` of the oldest iteration or the warnings that name unknown keys. The unknown keys are still computed (`Warned`).
- `launch_kernel`, `send_signal`, `terminate` and `cleanup` are not modelled. They only delegate to jupyter-client's `LocalProvisioner`, which is not part of this model.
- PyValues.StrRepr: escapes the backslash, the quote, `\n`, `\t`, `\r`, the other ASCII control characters and `\x7f`..`\xa0`, `\xad` as Python does; other non-printable Unicode characters (which Python writes as `\xNN`, `\uNNNN` or `\UNNNNNNNN`) are copied as they are, because the model has no Unicode character database. This only affects the text of error messages for such values.
- JpyVars.IntParseFromText: follows `int()` on ASCII input only. That means surrounding ASCII whitespace (space and `\t`..`\r`, the set `int()` skips; unlike `str.strip`, it leaves `\x1c`..`\x1f`), an optional sign and digits with single underscores. Unicode digits and non-ASCII whitespace are not modelled. Nor is the limit on digit strings: since Python 3.11 (and 3.8.14+ by backport), `int()` raises ValueError for more than 4300 digits, which the source turns into 0, while the model reads the number.
- `get_python_cmd` returning a list of `str | Path`: the command elements are modelled as strings or paths, with `str()` applied where the provisioner does.
- `src/pyproject_local_kernel/main.py`, `signal.py`, `parentpoller.py` and the ryeish kernels are not part of this model. They cover launching, signals and threads.

## Behaviours of the code worth noting

- `_configdata.py:80` says `python_cmd` is always a `list[str]` after normalization. A blank `python-cmd` string therefore becomes the empty list, not None (`_configdata.py:91-93`) (`ConfigData.BlankPythonCmdIsEmptyList`). It is the only way to an empty command (`Identify.Resolve`).
- `_dataclass_from_dict` tries the hyphenated key before the field's own name (`_configdata.py:46-50`). When both spellings are present, the hyphenated value is used and the underscored key is logged as unknown or duplicate (`ConfigData.DuplicateKeyWarned`).
- The first-entry guard in `update_environment` (`_identify.py:131-133`) compares a `str` with a `Path`. It never holds, so the bin directory is always prepended (`Identify.UpdateEnvironment`).
- When the sanity check fails after `update_environment` has edited a caller's `env` in place (`provisioner.py:81-90`), `pre_launch` hands that same, already edited dict to the fallback kernel (`provisioner.py:99-100`; `Provisioner.PyprojectKernelProvisioner.PreLaunch`).
- tests/test_provisioner.py expects `--fallback-kernel=` at argv index 1. The code puts it at index 3, after `sys.executable -m pyproject_local_kernel`, and the model follows the code.
