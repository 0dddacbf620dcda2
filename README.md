# terraform-vpc-blueprint: subnet allocator and placeholder engine in Dafny

This project models the two components of terraform-vpc-blueprint that do
the computing, and proves properties about them:

- **`PlaceholderProcessor`** (`scripts/placeholder_processor.py`). A VPC
  description is flattened into a context whose keys are the nested keys
  joined with `_`. In copies of the VPC, `{word}` placeholders are then
  replaced from that context, once per subnet index. A list value cycles
  with the index. The entries of the VPC's `template` dictionary are merged
  into each copy, and each copy gets `vlan_id = index + 1`.
- **`VpcGenerator`** (`scripts/vpc_blueprint.py`). A VPC's CIDR block is
  split into the fewest equal sub-blocks that give `vpc_subnets` of them.
  The VLAN ids of `vlan_range` are paired with the sub-blocks in order, and
  each pair becomes a subnet record. A record holds the gateway, a DHCP
  pool, the VLAN description, and a name and domain from the template.
  - VLAN id 0 uses up its sub-block without a record.
  - Under the UniFi option, a sub-block over 192.168.4.0/24 gets the fixed
    "Teleport VPN server" record.
  - A record whose construction raises is skipped, and the loop keeps its
    VLAN id for the next sub-block.

Modules (one per file):

| file | module | what it holds |
|---|---|---|
| `wrappers.dfy` | `Wrappers` | `Option`, `Result` |
| `text.dfy` | `PyText` | what the core relies on of Python's `int()`, `str()` of an integer, `str.strip`, `str.split`, `str.join`, `str.replace` |
| `values.dfy` | `PyValues` | JSON-shaped values; dictionaries as insertion-ordered entries with `get`, `d[k] = v` and `update`; the exceptions raised; `str()` and `repr()` |
| `flatten.dfy` | `PlaceholderFlatten` | `_flatten` |
| `resolve.dfy` | `PlaceholderResolve` | `_resolve_placeholders` |
| `processor.dfy` | `Processor` | `_process_nested` / `_process_dict` / `_process_list`, `_resolve_template`, `_process_vpc`, `_create_context`, `process`, and the class `PlaceholderProcessor` |
| `blocks.dfy` | `Ipv4Blocks` | IPv4 prefix arithmetic (RFC 4632, section 3.1): blocks, overlap, `subnets(new_prefix=...)` |
| `blueprint.dfy` | `VpcBlueprint` | `_parse_vlan_range`, `_calculate_new_prefix`, `_scale_dhcp`, `_get_vlan_description`, `_get_subnet_purpose`, `generate_subnets`, and the class `VpcGenerator` |

Where the source changes state step by step, the model does too.
`PlaceholderProcessor` and `VpcGenerator` are classes. The methods
`Process`, `ProcessSubnets`, `ProcessVpc`, `ResolveTemplate`,
`ResolvePlaceholders`, `Flatten`, `Subdivide` and `CalculateNewPrefix` run
the source's loops. Each method is proved equal to a specification
function (`ProcessAll`, `Runs`, `ProcessedVpc`, `ResolvedTemplate`,
`Resolve`, `FlattenEntries`, `Walk`, `NewPrefix`). The lemmas state what
the source promises about those functions. Python exceptions are values of
type `Failure`. A function that can raise returns a `Result`, and a record
the allocator skips is `None`.

Python semantics that are modelled explicitly:

- `int()` accepts surrounding whitespace, a sign, and `_` between digits.
- `int(0.1 * hosts)` truncates toward zero. It is written as integer
  arithmetic (`StaticCount`), which agrees with the float for every host
  count a block can have.
- `dict.update` and `d[k] = v` keep an existing key in its place and put a
  new key last.
- `s.replace` replaces every occurrence, left to right, without overlaps.
- The default name `f"{self.vpc['vpc_name']} Region {vlan_counter}"` is
  evaluated before `get` is called. A VPC without `vpc_name` therefore
  loses every record built from the template too.
- When a VLAN spec holds a dash, unpacking `map(int, ...)` into two names
  converts every piece it reaches before it checks the count. Both
  failures are a `ValueError`, so the model converts every piece first.

Code behaviour the model keeps on purpose:

- An exception from `_process_vpc` (a `template` that is not a
  dictionary) is caught at `scripts/vpc_blueprint.py:90-92` and the subnet
  is dropped (`Naming` is `None`). The record is not given the default name
  and domain. The defaults apply only when the processed VPC has no `name`
  or `domain` key (`NormalRecordTemplateDefault`).
- A skipped subnet consumes its sub-block but not its VLAN id
  (`scripts/vpc_blueprint.py:92`). A failure therefore shortens the result
  only when the sub-blocks run out before the VLAN ids do. For example,
  0.0.0.0/30 with four subnets and VLAN range `1-2` still gives two
  records after block 0 fails. `WalkLength` gives the bound that always
  holds: at most the number of sub-blocks and at most the number of VLAN
  ids. `WalkCount` gives the exact count when no record fails.
- `device_count` is `num_addresses - 2` (`scripts/vpc_blueprint.py:60`),
  which is 0 for a /31 and -1 for a /32.

## Model

| member | source | states |
|---|---|---|
| `PyText.NatToString` | scripts/vpc_blueprint.py:86-87 | `str()` of a natural number is a non-empty run of digits without a leading zero |
| `PyText.IntToString` | scripts/placeholder_processor.py:79-81 | `str()` of an integer is non-empty and starts with `-` exactly when the integer is negative |
| `PyText.DigitsValueOfNatToString` | scripts/vpc_blueprint.py:86-87 | the digits `str(n)` writes denote `n` |
| `PyText.TrimLeftSuffix` | scripts/vpc_blueprint.py:101-106 | stripping leading whitespace, as `int()` does, leaves a suffix of the text |
| `PyText.TrimRightPrefix` | scripts/vpc_blueprint.py:101-106 | stripping trailing whitespace leaves a prefix of the text |
| `PyText.StripChars` | scripts/vpc_blueprint.py:101-106 | stripping adds no character |
| `PyText.StripOfUnpadded` | scripts/vpc_blueprint.py:101-106 | text without whitespace at either end is unchanged by stripping |
| `PyText.DropUnderscores` | scripts/vpc_blueprint.py:101-106 | removing the `_` separators of digit groups leaves only digits |
| `PyText.DropUnderscoresOfDigits` | scripts/vpc_blueprint.py:101-106 | plain digits have no separator to remove |
| `PyText.ParseUnsignedOfDigits` | scripts/vpc_blueprint.py:101-106 | `int()` of a run of digits is the number the digits denote |
| `PyText.ParseIntSign` | scripts/vpc_blueprint.py:101-106 | `int()` yields a negative number only from text holding `-` |
| `PyText.ParseIntOfNatToString` | scripts/vpc_blueprint.py:101-106 | `int(str(n)) == n` for every natural `n` |
| `PyText.ParseIntOfNegative` | scripts/vpc_blueprint.py:101-106 | `int(str(i)) == i` for every negative `i` |
| `PyText.ParseIntOfIntToString` | scripts/vpc_blueprint.py:101-106 | `int(str(i)) == i` for every integer |
| `PyText.ParseIntOfMinus` | scripts/vpc_blueprint.py:101-106 | `int("-" + d)` is minus the value of `d` |
| `PyText.Split` | scripts/vpc_blueprint.py:101-104 | `s.split(c)` always yields at least one piece |
| `PyText.SplitPieces` | scripts/vpc_blueprint.py:101-104 | the pieces of `s.split(c)` hold only characters of `s`, and never `c` |
| `PyText.SplitOfPieceWithoutSep` | scripts/vpc_blueprint.py:101-104 | splitting `p + c + rest` gives `p` followed by the pieces of `rest`, and `p` alone splits to itself |
| `PyText.SplitJoin` | scripts/vpc_blueprint.py:101-104 | `c.join(parts).split(c) == parts` when no part holds `c` |
| `PyText.JoinWithout` | scripts/vpc_blueprint.py:104 | joining adds no character that neither the parts nor the separator hold |
| `PyText.ReplaceAllSkips` | scripts/placeholder_processor.py:158-167 | `replace` leaves a prefix alone that cannot start the pattern |
| `PyText.ReplaceAllMatch` | scripts/placeholder_processor.py:158-167 | an occurrence at the start is replaced and the scan resumes right after it |
| `PyText.ReplaceAllNoMatch` | scripts/placeholder_processor.py:158-167 | where no occurrence starts at the first character, that character is kept and the scan moves one on |
| `PyText.ReplaceAllKeeps` | scripts/placeholder_processor.py:158-167 | text at none of whose positions an occurrence starts is kept as it is in front of the replaced rest |
| `PyText.ParseInt` | scripts/vpc_blueprint.py:101-106 | `int(s)`: surrounding whitespace, an optional sign and digit groups joined by single `_`, or `None` for the `ValueError`; its laws are `ParseIntOfIntToString` and `ParseUnsignedOfDigits` |
| `PyText.Strip` | scripts/vpc_blueprint.py:101-106 | the whitespace `int()` ignores at both ends removed; see `StripChars` and `StripOfUnpadded` |
| `PyText.Join` | scripts/placeholder_processor.py:160-166 | `sep.join(parts)`, which `str()` of a list or dictionary uses; see `SplitJoin` |
| `PyText.ReplaceAll` | scripts/placeholder_processor.py:158-167 | `s.replace(pat, rep)`: every non-overlapping occurrence, left to right; see `ReplaceAllSkips` and `ReplaceTokenInRender` |
| `PyText.IsWordChar` | scripts/placeholder_processor.py:154 | the characters of the class `\w`, ASCII only: letters, digits and `_` |
| `PyText.IsSpace` | scripts/vpc_blueprint.py:101-106 | the ASCII whitespace `int()` ignores at either end: tab to carriage return, `\x1c`-`\x1f` and space |
| `PyText.TrimLeft` | scripts/vpc_blueprint.py:101-106 | the whitespace `int()` ignores dropped at the left end; `TrimLeftSuffix` is its law |
| `PyText.TrimRight` | scripts/vpc_blueprint.py:101-106 | the whitespace `int()` ignores dropped at the right end; `TrimRightPrefix` is its law |
| `PyText.IsDigitGroup` | scripts/vpc_blueprint.py:101-106 | the bodies `int()` accepts after the sign: digits, with single `_` only between two digits |
| `PyText.ParseUnsigned` | scripts/vpc_blueprint.py:101-106 | the value of an accepted body, `None` otherwise; `ParseUnsignedOfDigits` is its law |
| `PyValues.Get` | scripts/vpc_blueprint.py:82-83 | `d.get(k)` finds a value exactly when `k` is a key, and the value is the one stored under `k` |
| `PyValues.Replace` | scripts/placeholder_processor.py:83 | replacing a value keeps the length and the key of every position |
| `PyValues.KeysSnoc` | scripts/placeholder_processor.py:70-84 | the keys of a dictionary are those of all entries but the last, plus the last one |
| `PyValues.GetReplace` | scripts/placeholder_processor.py:83 | after replacing the value of an existing key, that key reads the new value and every other the old one |
| `PyValues.GetPut` | scripts/placeholder_processor.py:75-83 | after `d[k] = v`, `d[k]` is `v` |
| `PyValues.GetPutOther` | scripts/placeholder_processor.py:75-83 | after `d[k] = v`, every other key keeps its value |
| `PyValues.KeysPut` | scripts/placeholder_processor.py:75-83 | `d[k] = v` adds `k` to the keys and no other key |
| `PyValues.DistinctPut` | scripts/placeholder_processor.py:75-83 | `d[k] = v` keeps the keys distinct |
| `PyValues.GetPutAll` | scripts/placeholder_processor.py:73 | after `d.update(e)`, a key of `e` reads its value in `e`, and any other key its value in `d` |
| `PyValues.GetOr` | scripts/vpc_blueprint.py:82-83 | `d.get(k, default)`: the value under `k`, or `default` when `k` is missing |
| `PyValues.Put` | scripts/placeholder_processor.py:75-83 | `d[k] = v`: an existing key keeps its place, a new key goes last; see `GetPut`, `GetPutOther`, `KeysPut` |
| `PyValues.PutAll` | scripts/placeholder_processor.py:73 | `d.update(e)`: the entries of `e` put in order; see `GetPutAll` |
| `PyValues.PyInt` | scripts/placeholder_processor.py:48 | `vpc_subnets` used as a number: an integer, or a `bool` as 0 or 1, and nothing else |
| `PyValues.Iterate` | scripts/placeholder_processor.py:46 | what `for vpc in data["vpcs"]` visits: list items, dictionary keys or string characters, and nothing for a number or `None` |
| `PyValues.Str` | scripts/placeholder_processor.py:160-166 | `str(v)`: a string itself, anything else its `repr` |
| `PyValues.Repr` | scripts/placeholder_processor.py:160-166 | `repr(v)` of a JSON value: `None`, `True`/`False`, the integer's digits, a quoted string, lists and dictionaries element by element |
| `PyValues.ReprString` | scripts/placeholder_processor.py:160-166 | `repr` of a string starts and ends with the same quote, which is `"` exactly when the string holds `'` and no `"`, and `'` otherwise |
| `PyValues.EscapeChar` | scripts/placeholder_processor.py:160-166 | how `repr` writes one character between quotes: the quote and `\\` after a backslash, tab/newline/return by name, other ASCII control characters as `\\xhh` |
| `PyValues.Escape` | scripts/placeholder_processor.py:160-166 | the escaped body: each character written by `EscapeChar` |
| `PyValues.EscapeOfPlain` | scripts/placeholder_processor.py:160-166 | a string of printable characters other than the quote and `\\` is its own escaped body |
| `PyValues.EscapeQuoted` | scripts/placeholder_processor.py:160-166 | in the escaped body the quote character occurs only right after a backslash, so the body never ends the quoted text early |
| `PyValues.ReprStringOfPlain` | scripts/placeholder_processor.py:160-166 | a string without quote, backslash or control character is shown as `'s'` |
| `PyValues.ReprStringOfApostrophe` | scripts/placeholder_processor.py:160-166 | a string holding `'` and no `"` is shown as `"s"`, its `'` kept as is |
| `PlaceholderFlatten.Flatten` | scripts/placeholder_processor.py:174-197 | the loop of `_flatten`, with its recursive `update`s and its `break`, builds `FlattenEntries(d, parent_key)` |
| `PlaceholderFlatten.FlattenEntryInto` | scripts/placeholder_processor.py:185-196 | one iteration adds the part of its entry to `items` |
| `PlaceholderFlatten.FlattenListInto` | scripts/placeholder_processor.py:188-194 | the inner loop over a list adds the part of that list to `items` |
| `PlaceholderFlatten.FlattenEntriesStep` | scripts/placeholder_processor.py:184-197 | each entry adds its own part on top of what the earlier entries built |
| `PlaceholderFlatten.FlattenEntriesKeys` | scripts/placeholder_processor.py:185-191 | under a non-empty parent key, every flattened key starts with `parent_` |
| `PlaceholderFlatten.FlattenValueKeys` | scripts/placeholder_processor.py:185-196 | an entry's part holds only its own key or keys that start with `key_` |
| `PlaceholderFlatten.FlattenListKeys` | scripts/placeholder_processor.py:188-194 | a list's part holds only its own key or keys that start with `key_` |
| `PlaceholderFlatten.FlattenEntriesValues` | scripts/placeholder_processor.py:183-197 | a flattened value is never a dictionary, and a list in the context is never empty |
| `PlaceholderFlatten.FlattenValueValues` | scripts/placeholder_processor.py:186-196 | the same holds for the part of one entry |
| `PlaceholderFlatten.FlattenListValues` | scripts/placeholder_processor.py:188-194 | the same holds for the part of one list |
| `PlaceholderFlatten.FlattenDomain` | scripts/placeholder_processor.py:184-197 | a key is in the context exactly when some entry contributes it |
| `PlaceholderFlatten.FlattenLastWriter` | scripts/placeholder_processor.py:187-196 | the last entry that contributes a key gives its value (`update` is last-writer-wins) |
| `PlaceholderFlatten.FlattenEntriesLast` | scripts/placeholder_processor.py:184-197 | the context is what the entries before the last built, updated with the last entry's part |
| `PlaceholderFlatten.ContributionOfPrefix` | scripts/placeholder_processor.py:184-197 | an entry's part does not depend on the entries after it |
| `PlaceholderFlatten.FlattenCopiesScalar` | scripts/placeholder_processor.py:185-196 | a scalar is copied as it is under `parent_key` + `_` + its key, unless a later entry overwrites that key |
| `PlaceholderFlatten.FlattenListStoresWhole` | scripts/placeholder_processor.py:192-194 | if a list has an element that is not a dictionary, the whole list is stored under its key |
| `PlaceholderFlatten.FlattenListIgnoresTail` | scripts/placeholder_processor.py:194 | after the first element that is not a dictionary, the rest of the list adds no key |
| `PlaceholderFlatten.FlattenListOfDicts` | scripts/placeholder_processor.py:189-191 | every key from a list of dictionaries starts with `key_<i>_` for some position `i`. An empty list therefore contributes no key |
| `PlaceholderFlatten.FlattenListOfDictsNoOwnKey` | scripts/placeholder_processor.py:189-191 | a list of dictionaries never stores itself under its own key |
| `PlaceholderFlatten.FlattenEntries` | scripts/placeholder_processor.py:174-197 | the dictionary `_flatten(d, parent)` returns: each entry's part, later parts winning; its laws are `FlattenDomain` and `FlattenLastWriter` |
| `PlaceholderFlatten.FlattenValue` | scripts/placeholder_processor.py:185-196 | the part of one entry: a dictionary flattened under the composed key, a list by `FlattenList`, a scalar stored under the key |
| `PlaceholderFlatten.FlattenList` | scripts/placeholder_processor.py:188-194 | the part of a list from position `i` on: dictionaries flattened under `key_i`, and at the first other element the whole list stored under `key` and the loop left |
| `PlaceholderFlatten.ComposeKey` | scripts/placeholder_processor.py:185 | `new_key`: `parent_k` under a non-empty parent, else `k`; `FlattenEntriesKeys` follows from it |
| `PlaceholderFlatten.ItemKey` | scripts/placeholder_processor.py:191 | `f"{new_key}_{i}"`, the parent key of the i-th dictionary of a list; `FlattenListOfDicts` uses it |
| `PlaceholderResolve.ResolvePlaceholders` | scripts/placeholder_processor.py:144-172 | the loop of `_resolve_placeholders`, which reassigns `value` once per placeholder, computes `Resolve` |
| `PlaceholderResolve.WordRun` | scripts/placeholder_processor.py:154 | the `\w+` run at the start of a text is as long as possible |
| `PlaceholderResolve.FindTokens` | scripts/placeholder_processor.py:154 | `re.findall(r"{(\w+)}", s)` yields only non-empty `\w` names |
| `PlaceholderResolve.WordRunOfName` | scripts/placeholder_processor.py:154 | the `\w` run of `name + "}"` is `name` |
| `PlaceholderResolve.FindTokensOfToken` | scripts/placeholder_processor.py:154 | `findall` on `{name}` followed by more text yields `name`, then the matches in that text |
| `PlaceholderResolve.FindTokensSkips` | scripts/placeholder_processor.py:154 | text whose every `{` is followed by a non-`\w` character adds no match in front of any text |
| `PlaceholderResolve.SingleToken` | scripts/placeholder_processor.py:154-167 | `{name}` alone is found as `name` and replaced as a whole |
| `PlaceholderResolve.ResolveListToken` | scripts/placeholder_processor.py:157-163 | a token with a list value becomes `str(list[index % len(list)])` |
| `PlaceholderResolve.ResolveScalarToken` | scripts/placeholder_processor.py:164-167 | a token with any other value becomes `str(value)` |
| `PlaceholderResolve.ResolveMissingToken` | scripts/placeholder_processor.py:168-171 | a token missing from the context is kept as it is |
| `PlaceholderResolve.ResolveEmptyListToken` | scripts/placeholder_processor.py:161 | an empty list value raises `ZeroDivisionError`, from `index % 0` |
| `PlaceholderResolve.FindTokensOfRender` | scripts/placeholder_processor.py:154 | in text cut into literal pieces whose `{`s are each followed by a non-`\w` character and `{name}` tokens, `findall` yields exactly the token names in order |
| `PlaceholderResolve.TokenMismatch` | scripts/placeholder_processor.py:158-167 | replacing `{p}` cannot match at the start of another token `{q}` |
| `PlaceholderResolve.ReplaceTokenInRender` | scripts/placeholder_processor.py:158-167 | one `replace` of `{name}` turns exactly the tokens named `name` into the replacement text, and nothing else |
| `PlaceholderResolve.ReplaceInPiece` | scripts/placeholder_processor.py:158-167 | the same, one piece at a time |
| `PlaceholderResolve.ReplaceInToken` | scripts/placeholder_processor.py:158-167 | replacing `{name}` rewrites a token exactly when it carries that name, and goes on after it |
| `PlaceholderResolve.ReplaceTokenOther` | scripts/placeholder_processor.py:158-167 | a token of another name is kept and the replacement goes on after it |
| `PlaceholderResolve.SubstOneWellFormed` | scripts/placeholder_processor.py:158-167 | a replacement without `{` creates no new token |
| `PlaceholderResolve.ExpandAfterSubst` | scripts/placeholder_processor.py:155-167 | replacing the first name, then the rest, is the same as looking up all the names |
| `PlaceholderResolve.ExpandSkipsMissing` | scripts/placeholder_processor.py:168-171 | a name missing from the context changes nothing |
| `PlaceholderResolve.ExpandNoNames` | scripts/placeholder_processor.py:155 | with no names, no token changes |
| `PlaceholderResolve.ExpandAllNames` | scripts/placeholder_processor.py:154-155 | looking up every name `findall` found is the reference resolution |
| `PlaceholderResolve.ApplyTokensOnRender` | scripts/placeholder_processor.py:155-167 | the successive `replace` calls equal replacing each token on its own, provided every listed name the context binds substitutes to text without `{` |
| `PlaceholderResolve.ResolveSubstitutesEachToken` | scripts/placeholder_processor.py:153-172 | each token is resolved on its own against the same index, for text whose literal `{`s are each followed by a non-`\w` character (such as `{}`, `{ x }`, `{"k": 1}`), provided no value bound to one of the text's own names substitutes to text containing `{`; other context entries, such as templates that hold tokens, do not matter |
| `PlaceholderResolve.PlainScalarText` | scripts/placeholder_processor.py:160-166 | `str()` of `None`, a bool, an int, or a string without `{` holds no `{` |
| `PlaceholderResolve.SubstitutableOfPlain` | scripts/placeholder_processor.py:157-166 | names bound to plain scalars, or to non-empty lists of them, substitute without error to text without `{` |
| `PlaceholderResolve.ResolveWithoutToken` | scripts/placeholder_processor.py:153-172 | a string in which no `{\w+}` token occurs is returned unchanged |
| `PlaceholderResolve.WordRunExact` | scripts/placeholder_processor.py:154 | a run of `n` word characters ended by a non-word character is the whole `\w+` match |
| `PlaceholderResolve.FindTokensEmpty` | scripts/placeholder_processor.py:154 | `findall` finds nothing exactly when no position holds `{`, one or more `\w` characters and `}` |
| `PlaceholderResolve.ReplaceSkipsInert` | scripts/placeholder_processor.py:158-167 | replacing a token leaves alone text whose every `{` is followed by a non-word character |
| `PlaceholderResolve.InertNotToken` | scripts/placeholder_processor.py:158-167 | no token occurrence starts at the first character of such text |
| `PlaceholderResolve.FindTokensFormsNewToken` | scripts/placeholder_processor.py:154 | `findall` on `{{a}}{b}` finds `a` and `b` for any two names, and not the `{` in front |
| `PlaceholderResolve.ReplaceFormsNewToken` | scripts/placeholder_processor.py:158-167 | replacing `{a}` by `w` in `{{a}}{b}` gives `{w}{b}`: the outer braces now close around `w` |
| `PlaceholderResolve.FindTokensNoMatch` | scripts/placeholder_processor.py:154 | no match starts at a character other than `{`, or at a `{` not followed by `\w` |
| `PlaceholderResolve.FrontBraceKept` | scripts/placeholder_processor.py:158-167 | a `{` right before `{a}` is kept when `{a}` is replaced |
| `PlaceholderResolve.ReplaceOtherToken` | scripts/placeholder_processor.py:158-167 | replacing `{a}` leaves a lone token of another name alone |
| `PlaceholderResolve.ResolveFormsNewToken` | scripts/placeholder_processor.py:153-172 | for any distinct names `a`, `b` with `a` bound to `b` and `b` to `y`, `{{a}}{b}` resolves to `y + y`: a replacement completes a token that the next replacement rewrites, so resolution is not token by token there |
| `PlaceholderResolve.ApplyTokensTotal` | scripts/placeholder_processor.py:155-167 | without empty lists in the context, the replacements never raise |
| `PlaceholderResolve.ResolveTotal` | scripts/placeholder_processor.py:153-172 | without empty lists, resolution succeeds, a string stays a string, and any other value is returned as it is |
| `PlaceholderResolve.Substitution` | scripts/placeholder_processor.py:156-167 | the text a token takes: `str(list[index % len(list)])` for a list, `ZeroDivisionError` for an empty one, `str(value)` otherwise |
| `PlaceholderResolve.ApplyTokens` | scripts/placeholder_processor.py:155-171 | the loop: each found name in order, replaced in the current text when it is in the context; see `ApplyTokensOnRender` |
| `PlaceholderResolve.ResolveText` | scripts/placeholder_processor.py:153-172 | the found names applied to the string; see `ResolveSubstitutesEachToken` |
| `PlaceholderResolve.Resolve` | scripts/placeholder_processor.py:144-172 | `_resolve_placeholders`: a string resolved, any other value returned as is; see `ResolveTotal` |
| `Processor.ProcessDictEntries` | scripts/placeholder_processor.py:106-115 | `_process_dict` keeps every key in its place, and each value is processed on its own |
| `Processor.ProcessDictLength` | scripts/placeholder_processor.py:115 | `_process_dict` keeps the number of entries |
| `Processor.ProcessDictEntryAt` | scripts/placeholder_processor.py:115 | entry `i` keeps its key and holds its processed value |
| `Processor.ProcessDictKeys` | scripts/placeholder_processor.py:115 | `_process_dict` keeps the key set |
| `Processor.ProcessDictOk` | scripts/placeholder_processor.py:115 | `_process_dict` raises exactly when processing some value raises |
| `Processor.ProcessDictOkEach` | scripts/placeholder_processor.py:115 | if `_process_dict` succeeds, so does processing each value |
| `Processor.ProcessDictOkAt` | scripts/placeholder_processor.py:115 | the same, at one position |
| `Processor.ProcessDictFirstErr` | scripts/placeholder_processor.py:115 | if `_process_dict` raises, some value's processing raises |
| `Processor.ProcessDictStepOk` | scripts/placeholder_processor.py:115 | `_process_dict` succeeds exactly when it succeeds on all entries but the last and on the last |
| `Processor.ProcessListItems` | scripts/placeholder_processor.py:117-126 | `_process_list` keeps the length, and each item is processed on its own |
| `Processor.ProcessListLength` | scripts/placeholder_processor.py:126 | `_process_list` keeps the length |
| `Processor.ProcessListItemAt` | scripts/placeholder_processor.py:126 | item `i` is the processed item `i` |
| `Processor.ProcessListOk` | scripts/placeholder_processor.py:126 | `_process_list` raises exactly when some item's processing raises |
| `Processor.ProcessListOkEach` | scripts/placeholder_processor.py:126 | if `_process_list` succeeds, so does processing each item |
| `Processor.ProcessListOkAt` | scripts/placeholder_processor.py:126 | the same, at one position |
| `Processor.ProcessListFirstErr` | scripts/placeholder_processor.py:126 | if `_process_list` raises, some item's processing raises |
| `Processor.ProcessListStepOk` | scripts/placeholder_processor.py:126 | `_process_list` succeeds exactly when it succeeds on all items but the last and on the last |
| `Processor.ProcessNestedShape` | scripts/placeholder_processor.py:128-142 | a dictionary stays a dictionary with the same keys, a list a list of the same length, and a scalar becomes the resolved `str(item)` |
| `Processor.ProcessNestedTotal` | scripts/placeholder_processor.py:128-142 | without empty lists in the context, `_process_nested` never raises |
| `Processor.ResolvedTemplateEntries` | scripts/placeholder_processor.py:95-104 | `_resolve_template` keeps the template's keys, each once. Each holds its resolved value, or the original value when resolution raised |
| `Processor.ProcessedVpcVlanId` | scripts/placeholder_processor.py:83 | every processed VPC has `vlan_id = index + 1` |
| `Processor.ProcessEntriesNext` | scripts/placeholder_processor.py:71-81 | one more iteration of the loop of `_process_vpc` processes one more item |
| `Processor.ProcessedVpcErr` | scripts/placeholder_processor.py:71-84 | an exception in some iteration is the exception of `_process_vpc` |
| `Processor.ProcessedVpcDone` | scripts/placeholder_processor.py:82-84 | after the loop, `_process_vpc` returns the processed items plus `vlan_id` |
| `Processor.ProcessEntriesErrPersists` | scripts/placeholder_processor.py:71-81 | once an iteration raises, the rest of the loop does not run |
| `Processor.ProcessEntriesOk` | scripts/placeholder_processor.py:71-81 | the loop raises exactly when some `template` item is not a dictionary, and then it raises `AttributeError` (from `.items()`) |
| `Processor.TemplatesSnoc` | scripts/placeholder_processor.py:72-73 | every template is a dictionary exactly when this holds for all items but the last and for the last |
| `Processor.ProcessEntriesStep` | scripts/placeholder_processor.py:71-81 | the loop is its earlier iterations followed by the last one |
| `Processor.ProcessEntryOk` | scripts/placeholder_processor.py:72-81 | one iteration raises exactly when its item is a `template` that is not a dictionary |
| `Processor.ProcessedVpcOk` | scripts/placeholder_processor.py:61-84 | `_process_vpc` raises exactly when some `template` is not a dictionary, and the exception is `AttributeError` |
| `Processor.ProcessEntriesFields` | scripts/placeholder_processor.py:74-81 | a key that no template writes is an output key exactly when it is a VPC key, and its value is the processed VPC value |
| `Processor.NotFromTemplatePrefix` | scripts/placeholder_processor.py:72-73 | a key no template writes is not written by the templates of any prefix either |
| `Processor.ProcessedVpcField` | scripts/placeholder_processor.py:74-84 | the same holds for what `_process_vpc` returns, for any key other than `vlan_id` |
| `Processor.ProcessedVpcNoTemplateKey` | scripts/placeholder_processor.py:72-73 | `template` itself is never an output key, unless a template holds a `template` key |
| `Processor.ProcessEntriesNoTemplateKey` | scripts/placeholder_processor.py:72-73 | the same, for the loop |
| `Processor.ProcessEntriesTemplate` | scripts/placeholder_processor.py:72-104 | a template key that is not a VPC key reads its resolved template value, and is absent without a template |
| `Processor.ProcessedVpcTemplateKey` | scripts/placeholder_processor.py:72-103 | the resolved template entries are merged under their own keys. An entry whose resolution raised keeps its original value |
| `Processor.ContextOf` | scripts/placeholder_processor.py:27-36 | the context holds `count_index == 0`, no dictionary values and no empty lists |
| `Processor.ProcessVpcsStep` | scripts/placeholder_processor.py:46-52 | the outer loop is the records of the first VPC followed by those of the rest |
| `Processor.RunsAdvance` | scripts/placeholder_processor.py:48-52 | one iteration of the inner loop either raises, or appends the processed VPC with `count_index = index + 1` and goes on |
| `Processor.OuterStep` | scripts/placeholder_processor.py:46-48 | a VPC that is not a dictionary raises `AttributeError`, a missing `vpc_subnets` `KeyError`, and a non-integer one `TypeError`. Otherwise its records come next |
| `Processor.ChainStep` | scripts/placeholder_processor.py:46-52 | the first stage's exception wins, and otherwise its records come first |
| `Processor.PrependPrepend` | scripts/placeholder_processor.py:45-52 | appending records in two steps is appending them at once |
| `Processor.RunsLength` | scripts/placeholder_processor.py:48 | `range(n)` from `i` gives `n - i` records, or none when `i >= n` |
| `Processor.RunsRecordAt` | scripts/placeholder_processor.py:48-52 | record `j` is `_process_vpc` at index `i + j` with `count_index = i + j + 1` |
| `Processor.RunsRecords` | scripts/placeholder_processor.py:48-52 | the inner loop emits one record per index, each the processed VPC at that index |
| `Processor.RunsVlanIds` | scripts/placeholder_processor.py:48-83 | the records' `vlan_id`s count up from `i + 1` |
| `Processor.RunsVlanIdAt` | scripts/placeholder_processor.py:83 | record `j` has `vlan_id = i + j + 1` |
| `Processor.RecordVlanId` | scripts/placeholder_processor.py:82-83 | the record for subnet index `k` carries `vlan_id = k + 1` |
| `Processor.RunsStep` | scripts/placeholder_processor.py:48-52 | the inner loop is record `i` followed by the rest |
| `Processor.ChainPrepend` | scripts/placeholder_processor.py:52 | records appended before a stage stay first |
| `Processor.RunsOk` | scripts/placeholder_processor.py:48-52 | the inner loop raises exactly when it runs at least once and some template is not a dictionary |
| `Processor.ProcessVpcsOk` | scripts/placeholder_processor.py:38-59 | `process` raises exactly when some VPC cannot be processed. Otherwise it emits exactly `vpc_subnets` records per VPC |
| `Processor.ProcessVpcsHead` | scripts/placeholder_processor.py:46-52 | the first VPC and the rest decide the outcome, and the first VPC's records come first |
| `Processor.AllProcessableCons` | scripts/placeholder_processor.py:46 | every VPC can be processed exactly when the first and the rest can |
| `Processor.CountIndexToken` | scripts/placeholder_processor.py:49-51 | `{count_index}` in the record for index `i` reads `i + 1` |
| `Processor.RecordTextSubstitutes` | scripts/placeholder_processor.py:47-52 | in the context of record `i` (the flattened VPC with `count_index = i + 1`), text whose names are bound to plain values resolves each token on its own against index `i`, whatever other entries the VPC holds |
| `Processor.ProcessNested` | scripts/placeholder_processor.py:128-142 | `_process_nested`: dictionaries and lists walked, anything else `str(item)` resolved; see `ProcessNestedShape` |
| `Processor.ProcessDict` | scripts/placeholder_processor.py:106-115 | `_process_dict`: each value processed under its key; see `ProcessDictEntries`, `ProcessDictOk` |
| `Processor.ProcessList` | scripts/placeholder_processor.py:117-126 | `_process_list`: each item processed in place; see `ProcessListItems`, `ProcessListOk` |
| `Processor.ResolvedTemplate` | scripts/placeholder_processor.py:86-104 | the dictionary `_resolve_template` returns; see `ResolvedTemplateEntries` |
| `Processor.ProcessEntry` | scripts/placeholder_processor.py:71-81 | one iteration of `_process_vpc`'s loop: a `template` merged with `update`, other keys processed and stored |
| `Processor.ProcessEntries` | scripts/placeholder_processor.py:70-81 | `processed_vpc` after the loop; see `ProcessEntriesFields`, `ProcessEntriesOk` |
| `Processor.ProcessedVpc` | scripts/placeholder_processor.py:61-84 | `_process_vpc`: the processed entries with `vlan_id = index + 1`; see `ProcessedVpcField`, `ProcessedVpcVlanId` |
| `Processor.Record` | scripts/placeholder_processor.py:47-52 | the record for subnet index `i`, with `count_index = i + 1` in the context |
| `Processor.Runs` | scripts/placeholder_processor.py:48-52 | the inner loop over `range(n)` from index `i`; see `RunsRecords`, `RunsLength` |
| `Processor.ProcessVpcs` | scripts/placeholder_processor.py:46-52 | the outer loop over `vpcs`; see `ProcessVpcsOk` |
| `Processor.ProcessAll` | scripts/placeholder_processor.py:38-59 | what `process` returns before `json.dumps`, or the exception it re-raises |
| `Processor.PlaceholderProcessor.constructor` | scripts/placeholder_processor.py:13-25 | input without a `vpcs` key is wrapped as `{"vpcs": [data]}`, and any other input is kept |
| `Processor.PlaceholderProcessor.CreateContext` | scripts/placeholder_processor.py:27-36 | `_create_context` returns the flattened VPC with `count_index = 0` |
| `Processor.PlaceholderProcessor.ResolveTemplate` | scripts/placeholder_processor.py:86-104 | the loop of `_resolve_template` computes `ResolvedTemplate` |
| `Processor.PlaceholderProcessor.ProcessVpc` | scripts/placeholder_processor.py:61-84 | the loop of `_process_vpc` computes `ProcessedVpc` |
| `Processor.PlaceholderProcessor.ProcessItem` | scripts/placeholder_processor.py:72-81 | one iteration of that loop computes `ProcessEntry` |
| `Processor.PlaceholderProcessor.ProcessSubnets` | scripts/placeholder_processor.py:47-52 | the inner loop of `process`, which updates `count_index`, computes `Runs` |
| `Processor.PlaceholderProcessor.Process` | scripts/placeholder_processor.py:38-59 | `process` computes `ProcessAll(data)` |
| `Processor.TemplateValue` | scripts/placeholder_processor.py:97-103 | the value `_resolve_template` stores for one item: the resolved value, or the original value when resolution raises; `ResolvedTemplateEntries` states it per key |
| `Processor.ProcessableVpc` | scripts/placeholder_processor.py:46-52 | what `process` needs of one VPC to finish without raising: a dictionary, an integer `vpc_subnets`, and dictionary templates when it has subnets; `ProcessVpcsOk` shows this is exactly that condition |
| `Processor.SubnetCount` | scripts/placeholder_processor.py:48 | `len(range(vpc["vpc_subnets"]))`: the count, or 0 when it is not positive; `ProcessVpcsOk` uses it as the number of records each VPC gives |
| `Ipv4Blocks.Pow2` | scripts/vpc_blueprint.py:110 | `1 << k` is at least 1 |
| `Ipv4Blocks.Pow2Add` | scripts/vpc_blueprint.py:48 | `2^(a+b) == 2^a * 2^b` |
| `Ipv4Blocks.Pow2Monotonic` | scripts/vpc_blueprint.py:110-111 | `2^k` grows with `k` |
| `Ipv4Blocks.Pow2Of32` | scripts/vpc_blueprint.py:112 | `2^32` is the number of IPv4 addresses |
| `Ipv4Blocks.OverlapsIntersect` | scripts/vpc_blueprint.py:65 | `overlaps` holds exactly when the address ranges intersect |
| `Ipv4Blocks.ReservedIsValid` | scripts/vpc_blueprint.py:46 | 192.168.4.0/24 is a valid block |
| `Ipv4Blocks.MulMonotonic` | scripts/vpc_blueprint.py:48 | multiplication by a natural number is monotonic |
| `Ipv4Blocks.MulModZero` | scripts/vpc_blueprint.py:48 | `k * m` is a multiple of `m` |
| `Ipv4Blocks.AlignedCoarser` | scripts/vpc_blueprint.py:48 | an address aligned to a block is aligned to each of its sub-blocks |
| `Ipv4Blocks.AlignedShift` | scripts/vpc_blueprint.py:48 | moving by whole sub-blocks keeps the alignment |
| `Ipv4Blocks.SubBlockInside` | scripts/vpc_blueprint.py:48 | each block `subnets(new_prefix=p)` yields is a valid block inside the network |
| `Ipv4Blocks.SlotAligned` | scripts/vpc_blueprint.py:48 | slot `i` of an aligned run of slots is aligned |
| `Ipv4Blocks.SlotEnd` | scripts/vpc_blueprint.py:48 | slot `i` lies inside the run of slots |
| `Ipv4Blocks.SubBlockNext` | scripts/vpc_blueprint.py:48 | each sub-block starts right after the previous one ends |
| `Ipv4Blocks.SubBlocksDisjoint` | scripts/vpc_blueprint.py:48 | distinct sub-blocks do not overlap |
| `Ipv4Blocks.CeilLog2Least` | scripts/vpc_blueprint.py:110-111 | `2^k >= n` exactly when `k` is at least the ceiling of `log2 n` |
| `Ipv4Blocks.Overlaps` | scripts/vpc_blueprint.py:65 | `a.overlaps(b)`; see `OverlapsIntersect` |
| `Ipv4Blocks.SubBlockCount` | scripts/vpc_blueprint.py:48 | how many blocks `subnets(new_prefix=p)` yields, `2^(p - prefix)` |
| `Ipv4Blocks.SubBlock` | scripts/vpc_blueprint.py:48 | the `i`-th block `subnets(new_prefix=p)` yields; see `SubBlockInside`, `SubBlockNext`, `SubBlocksDisjoint` |
| `Ipv4Blocks.CeilLog2` | scripts/vpc_blueprint.py:108-111 | the number of extra prefix bits `n` sub-blocks need; see `CeilLog2Least` |
| `Ipv4Blocks.Size` | scripts/vpc_blueprint.py:60 | `num_addresses`: 2^(32 - prefix) |
| `Ipv4Blocks.Last` | scripts/vpc_blueprint.py:120 | `broadcast_address`: the block's last address |
| `Ipv4Blocks.ValidBlock` | scripts/vpc_blueprint.py:28 | what strict `ip_network` accepts: zero host bits, inside the IPv4 space; `SubBlockInside` shows every sub-block meets it |
| `Ipv4Blocks.Contains` | scripts/vpc_blueprint.py:65 | an address lies in a block, between its first and last address; the containment test `overlaps` is built from |
| `Ipv4Blocks.Reserved` | scripts/vpc_blueprint.py:46 | 192.168.4.0/24; `ReservedIsValid` shows it is a valid block |
| `VpcBlueprint.Range` | scripts/vpc_blueprint.py:102 | `list(range(a, b))` holds `a, a+1, ...` and has `b - a` elements, or none |
| `VpcBlueprint.ParseAll` | scripts/vpc_blueprint.py:101-104 | converting the pieces keeps their number, and a failure is a `ValueError` |
| `VpcBlueprint.ParseAllEach` | scripts/vpc_blueprint.py:101-104 | the conversion succeeds exactly when `int()` accepts every piece |
| `VpcBlueprint.ParseAllFirst` | scripts/vpc_blueprint.py:104 | the conversion succeeds exactly when it succeeds on the first piece and on the rest |
| `VpcBlueprint.ParseAllNonNegative` | scripts/vpc_blueprint.py:101-104 | pieces without `-` convert to non-negative numbers |
| `VpcBlueprint.ParseAllCons` | scripts/vpc_blueprint.py:104 | the first piece's number comes first |
| `VpcBlueprint.ParseAllTexts` | scripts/vpc_blueprint.py:104 | converting `str()` of numbers gives the numbers back |
| `VpcBlueprint.ParseAllNumbers` | scripts/vpc_blueprint.py:104 | pieces that `int()` maps to given numbers convert to those numbers, in order |
| `VpcBlueprint.DigitsWithout` | scripts/vpc_blueprint.py:100-103 | a run of digits holds neither `-` nor `,` |
| `VpcBlueprint.SplitAround` | scripts/vpc_blueprint.py:101 | `x-y` splits to `[x, y]` |
| `VpcBlueprint.ParseAllOne` | scripts/vpc_blueprint.py:106 | a single number converts to itself |
| `VpcBlueprint.ParseAllPair` | scripts/vpc_blueprint.py:101 | two numbers convert to themselves |
| `VpcBlueprint.DashRange` | scripts/vpc_blueprint.py:100-102 | `"a-b"` gives the inclusive list `[a..b]` |
| `VpcBlueprint.DashEnds` | scripts/vpc_blueprint.py:100-102 | a spec with a dash whose two pieces convert to `a` and `b` gives `[a..b]` |
| `VpcBlueprint.ParseVlanRangeOfRange` | scripts/vpc_blueprint.py:100-102 | `f"{a}-{b}"` gives `[a..b]` for all naturals `a` and `b` |
| `VpcBlueprint.ParseVlanRangeComma` | scripts/vpc_blueprint.py:103-104 | without a dash, a spec with a comma gives its converted pieces in order (the dash form is checked first) |
| `VpcBlueprint.ParseVlanRangePlain` | scripts/vpc_blueprint.py:105-106 | without a dash or a comma, the spec gives the singleton list |
| `VpcBlueprint.TextsWithout` | scripts/vpc_blueprint.py:100-103 | `str()` of a natural number holds neither `-` nor `,` |
| `VpcBlueprint.ParseVlanRangeOfList` | scripts/vpc_blueprint.py:103-106 | `",".join(map(str, ids))` parses back to `ids` for every non-empty list of naturals |
| `VpcBlueprint.ParseVlanRangeNonNegative` | scripts/vpc_blueprint.py:99-106 | every VLAN id parsed from a spec is non-negative (a `-` is always read as the range dash) |
| `VpcBlueprint.VlanRangeExamples` | tests/test_vpc_blueprint.py:85-90 | `"1-3"` and `"1,2,3"` give `[1, 2, 3]`, and `"1"` gives `[1]` |
| `VpcBlueprint.VlanRangeDash` | tests/test_vpc_blueprint.py:88 | `"1-3"` gives `[1, 2, 3]` |
| `VpcBlueprint.VlanRangeList` | tests/test_vpc_blueprint.py:89 | `"1,2,3"` gives `[1, 2, 3]` |
| `VpcBlueprint.VlanRangeSingle` | tests/test_vpc_blueprint.py:90 | `"1"` gives `[1]` |
| `VpcBlueprint.VlanRangeDefault` | scripts/vpc_blueprint.py:36 | the default `"1-1"` gives `[1]` |
| `VpcBlueprint.VlanRangePair` | tests/test_vpc_blueprint.py:33 | `"1,2"` gives `[1, 2]` |
| `VpcBlueprint.VlanRangeFour` | tests/test_vpc_blueprint.py:62 | `"1,2,3,4"` gives `[1, 2, 3, 4]` |
| `VpcBlueprint.NewPrefix` | scripts/vpc_blueprint.py:108-114 | a new prefix lies between the network's prefix and 32 |
| `VpcBlueprint.NewPrefixLeast` | scripts/vpc_blueprint.py:108-114 | the new prefix gives at least `n` sub-blocks and no shorter prefix does. The `ValueError` is raised exactly when even a /32 split gives fewer than `n` |
| `VpcBlueprint.NewPrefixExamples` | tests/test_vpc_blueprint.py:92-97 | `(24, 2)` gives 25, and `(32, 2)` raises |
| `VpcBlueprint.ScaleDhcpPool` | scripts/vpc_blueprint.py:116-124 | up to /31 the pool leaves the same number of static addresses at each end of the usable range, one tenth of the hosts rounded down. The pool starts after the network address and stops before the broadcast address, and from /30 on it is not empty |
| `VpcBlueprint.ScaleDhcpSingle` | scripts/vpc_blueprint.py:116-124 | a /32 raises exactly at the first or last address, and otherwise gets the reversed pool `(base + 1, base - 1)` |
| `VpcBlueprint.VlanDescriptionDynamic` | scripts/vpc_blueprint.py:126-135 | the description is "Dynamic" exactly for ids other than 0, 1, 4095 and 1002 to 1005, and the Token Ring text exactly for 1002 to 1005 |
| `VpcBlueprint.SubnetPurposeKnown` | scripts/vpc_blueprint.py:137-142 | a purpose is known exactly for 192.168.4.0/24 and 10.255.253.0/24 |
| `VpcBlueprint.NormalRecordBuilt` | scripts/vpc_blueprint.py:75-92 | the `try` block succeeds exactly when the VPC has `vpc_name`, every template is a dictionary, and a /32 is neither the first nor the last address |
| `VpcBlueprint.NormalRecordFields` | scripts/vpc_blueprint.py:58-89 | a normal record has its block and VLAN id, `gateway = network + 1`, `device_count = num_addresses - 2`, the pool of `_scale_dhcp` and the description of its VLAN id |
| `VpcBlueprint.AssembleFields` | scripts/vpc_blueprint.py:58-89 | the same, for a record put together from its pool and naming |
| `VpcBlueprint.NormalRecordDefaults` | scripts/vpc_blueprint.py:85-87 | without a template, the name is `"<vpc_name> Region <k>"` and the domain `"subdomain_<k>.lan"`, with `k = vlan_counter` |
| `VpcBlueprint.NormalRecordFromTemplate` | scripts/vpc_blueprint.py:77-84 | a template's `name` or `domain` gives the record's name or domain, resolved with `count_index = vlan_counter + 1` at index `vlan_counter` |
| `VpcBlueprint.NormalRecordTemplateDefault` | scripts/vpc_blueprint.py:81-83 | with a template that holds no `name` (or `domain`), the record gets the default `"<vpc_name> Region <k>"` (or `"subdomain_<k>.lan"`), `k = vlan_counter` |
| `VpcBlueprint.WalkEnds` | scripts/vpc_blueprint.py:48-50 | the loop stops when the sub-blocks or the VLAN ids run out |
| `VpcBlueprint.WalkFinished` | scripts/vpc_blueprint.py:48-97 | once the loop stops, the records appended so far are the result |
| `VpcBlueprint.WalkSkipsZero` | scripts/vpc_blueprint.py:54-56 | VLAN id 0 uses up its sub-block and its position in the list, and emits no record |
| `VpcBlueprint.WalkAppends` | scripts/vpc_blueprint.py:94-95 | a built record is appended, and the VLAN counter advances |
| `VpcBlueprint.WalkSkipsFailure` | scripts/vpc_blueprint.py:90-92 | a record that raises is dropped, and the VLAN counter does not advance |
| `VpcBlueprint.WalkLength` | scripts/vpc_blueprint.py:48-95 | there are never more records than sub-blocks, nor more than VLAN ids |
| `VpcBlueprint.IncreasingLength` | scripts/vpc_blueprint.py:48 | a strictly increasing list of positions in `[lo, hi)` has at most `hi - lo` elements |
| `VpcBlueprint.IncreasingCons` | scripts/vpc_blueprint.py:48-95 | a record from an earlier sub-block and position can be put first |
| `VpcBlueprint.StepFields` | scripts/vpc_blueprint.py:52-63 | the record for sub-block `i` has that block as its CIDR and the current VLAN id |
| `VpcBlueprint.SourcedEarlier` | scripts/vpc_blueprint.py:48-95 | records drawn from later sub-blocks are drawn from sub-blocks after any earlier point |
| `VpcBlueprint.SourcedCons` | scripts/vpc_blueprint.py:94-95 | appending keeps every record tied to its own sub-block and VLAN position |
| `VpcBlueprint.WalkSources` | scripts/vpc_blueprint.py:48-95 | each record comes from its own sub-block and VLAN position, both strictly increasing along the result, so VLAN ids appear in list order |
| `VpcBlueprint.WalkSourcesSkip` | scripts/vpc_blueprint.py:54-92 | the same holds across a skipped sub-block |
| `VpcBlueprint.WalkSourcesCons` | scripts/vpc_blueprint.py:94-95 | the same holds across an appended record |
| `VpcBlueprint.WalkDisjoint` | scripts/vpc_blueprint.py:48-95 | no two records' blocks overlap |
| `VpcBlueprint.WalkInside` | scripts/vpc_blueprint.py:48-95 | every record's block is a valid block inside the VPC's network |
| `VpcBlueprint.WalkCount` | scripts/vpc_blueprint.py:48-95 | when every record can be built and no VLAN id is 0, there are exactly `min(#sub-blocks, #VLAN ids)` records |
| `VpcBlueprint.StepRecord` | scripts/vpc_blueprint.py:58-92 | every record has the shape the source builds: the reserved record exactly for a UniFi block over 192.168.4.0/24, otherwise the gateway, the pool and the description |
| `VpcBlueprint.ReservedShape` | scripts/vpc_blueprint.py:65-73 | the reserved record has no gateway, pool or domain, the "Teleport VPN server" name and `num_addresses - 2` devices |
| `VpcBlueprint.AssembleShape` | scripts/vpc_blueprint.py:75-92 | a record outside the UniFi reservation has the gateway `network_address + 1`, the `_scale_dhcp` pool and the VLAN's description |
| `VpcBlueprint.WalkRecords` | scripts/vpc_blueprint.py:48-95 | every record has a non-zero VLAN id and that shape |
| `VpcBlueprint.IncreasingFills` | scripts/vpc_blueprint.py:48 | `n` strictly increasing positions below `n` are `0, 1, ..., n-1` |
| `VpcBlueprint.IncreasingAbove` | scripts/vpc_blueprint.py:48 | position `j` of a strictly increasing list is at least `j` |
| `VpcBlueprint.IncreasingBelow` | scripts/vpc_blueprint.py:48 | a strictly increasing list below `hi` leaves room for its remaining elements |
| `VpcBlueprint.WalkFull` | scripts/vpc_blueprint.py:48-95 | when there are as many records as sub-blocks and VLAN ids, record `j` is sub-block `j` with VLAN id `j` |
| `VpcBlueprint.WalkEveryBlock` | scripts/vpc_blueprint.py:48-95 | with as many VLAN ids as sub-blocks, none of them 0, and every record buildable, record `j` is sub-block `j` with VLAN id `j` and the record shape |
| `VpcBlueprint.GenerateWalk` | scripts/vpc_blueprint.py:26-97 | once the CIDR, subnet count, VLAN range and prefix checks pass, `generate_subnets` returns the loop's records |
| `VpcBlueprint.VlanIdsOf` | scripts/vpc_blueprint.py:36-37 | the VLAN ids are those of `settings["vlan_range"]` |
| `VpcBlueprint.VlanIdsPair` | scripts/vpc_blueprint.py:36-37 | `vlan_range = "1,2"` gives `[1, 2]` |
| `VpcBlueprint.VlanIdsFour` | scripts/vpc_blueprint.py:36-37 | `vlan_range = "1,2,3,4"` gives `[1, 2, 3, 4]` |
| `VpcBlueprint.TenNetValid` | tests/test_vpc_blueprint.py:30 | 10.0.0.0/24 is a valid block |
| `VpcBlueprint.UnifiNetValid` | tests/test_vpc_blueprint.py:59 | 192.168.0.0/16 is a valid block |
| `VpcBlueprint.TwoSubnetsWalk` | tests/test_vpc_blueprint.py:26-53 | 10.0.0.0/24 split at /25 with VLAN ids 1 and 2 gives two records with 126 devices each and gateways .1 and .129 |
| `VpcBlueprint.TenNetRecords` | tests/test_vpc_blueprint.py:42 | the two /25 records have their expected blocks, VLAN ids, device counts and gateways |
| `VpcBlueprint.UnifiWalk` | tests/test_vpc_blueprint.py:55-83 | under UniFi, 192.168.0.0/16 split at /18 with VLAN ids 1 to 4 gives the reserved record first and three normal ones |
| `VpcBlueprint.UnifiBlocks` | tests/test_vpc_blueprint.py:72-83 | the four /18 records are the reserved one followed by three with a gateway |
| `VpcBlueprint.UnifiFirstRecord` | tests/test_vpc_blueprint.py:72-78 | the record of 192.168.0.0/18 is the reserved record: "Teleport VPN server", with no pool, domain or gateway |
| `VpcBlueprint.UnifiOtherRecord` | tests/test_vpc_blueprint.py:80-83 | the other three /18 blocks do not overlap 192.168.4.0/24 and get a gateway |
| `VpcBlueprint.GenerateTwoSubnets` | tests/test_vpc_blueprint.py:26-53 | `generate_subnets` on 10.0.0.0/24, 2 subnets and VLAN range `"1,2"` succeeds with exactly two records: VLAN ids 1 and 2, 126 devices each |
| `VpcBlueprint.GenerateUnifi` | tests/test_vpc_blueprint.py:55-83 | `generate_subnets` under UniFi on 192.168.0.0/16, 4 subnets and `"1,2,3,4"` succeeds with the reserved record and exactly three others |
| `VpcBlueprint.ParseVlanRange` | scripts/vpc_blueprint.py:99-106 | `_parse_vlan_range` on a string: the dash case first, then a comma list, then one number; see `ParseVlanRangeOfRange`, `ParseVlanRangeOfList` |
| `VpcBlueprint.Pieces` | scripts/vpc_blueprint.py:100-106 | the pieces `int()` is applied to in each case |
| `VpcBlueprint.VlanSpec` | scripts/vpc_blueprint.py:36-37 | `_parse_vlan_range` on whatever `vlan_range` holds: `TypeError` for `in` on a number or `None`, and a list or dictionary fails |
| `VpcBlueprint.VlanIds` | scripts/vpc_blueprint.py:36-37 | `settings.get('vlan_range', '1-1')` parsed; see `VlanIdsOf` |
| `VpcBlueprint.RequestedSubnets` | scripts/vpc_blueprint.py:32-34 | `vpc_subnets`, with `ValueError` when it is not positive |
| `VpcBlueprint.StaticCount` | scripts/vpc_blueprint.py:118 | `int(0.1 * total_hosts)` as integer arithmetic, truncated toward zero |
| `VpcBlueprint.ScaleDhcp` | scripts/vpc_blueprint.py:116-124 | `_scale_dhcp`: the pool start and stop, or `ValueError` outside the address space; see `ScaleDhcpPool`, `ScaleDhcpSingle` |
| `VpcBlueprint.VlanDescription` | scripts/vpc_blueprint.py:126-135 | `_get_vlan_description`; see `VlanDescriptionDynamic` |
| `VpcBlueprint.SubnetPurpose` | scripts/vpc_blueprint.py:137-142 | `_get_subnet_purpose`; see `SubnetPurposeKnown` |
| `VpcBlueprint.ReservedRecord` | scripts/vpc_blueprint.py:65-73 | the fixed "Teleport VPN server" record with no gateway, pool or domain |
| `VpcBlueprint.Naming` | scripts/vpc_blueprint.py:77-87 | name and domain from the processed VPC or the defaults, or `None` when working them out raises |
| `VpcBlueprint.Assemble` | scripts/vpc_blueprint.py:58-94 | the record from its pool and naming, `None` when either raised or the gateway leaves the address space; see `AssembleFields` |
| `VpcBlueprint.NormalRecord` | scripts/vpc_blueprint.py:75-92 | the record the `try` block builds, `None` when it raises; see `NormalRecordBuilt`, `NormalRecordFields` |
| `VpcBlueprint.Step` | scripts/vpc_blueprint.py:52-95 | the record for one sub-block and VLAN position; see `StepRecord`, `StepFields` |
| `VpcBlueprint.Walk` | scripts/vpc_blueprint.py:48-95 | the `for` loop with its `break` and `continue`s; see `WalkSources`, `WalkDisjoint`, `WalkCount` |
| `VpcBlueprint.Generate` | scripts/vpc_blueprint.py:26-97 | `generate_subnets`: the checks in source order, then the loop; see `GenerateWalk` |
| `VpcBlueprint.VpcGenerator.constructor` | scripts/vpc_blueprint.py:22-24 | the generator keeps the VPC and the UniFi flag |
| `VpcBlueprint.VpcGenerator.GenerateSubnets` | scripts/vpc_blueprint.py:26-97 | `generate_subnets` computes `Generate`: its checks in the source's order, then the loop |
| `VpcBlueprint.VpcGenerator.Subdivide` | scripts/vpc_blueprint.py:42-97 | the loop over `network.subnets(new_prefix)`, with its `break` and `continue`s, computes `Walk` |
| `VpcBlueprint.VpcGenerator.Visit` | scripts/vpc_blueprint.py:49-95 | one iteration of the loop advances the walk by one sub-block |
| `VpcBlueprint.VpcGenerator.Place` | scripts/vpc_blueprint.py:52-92 | the record of one sub-block is `Step`: the reserved record or the `try` block |
| `VpcBlueprint.VpcGenerator.DescribeSubnet` | scripts/vpc_blueprint.py:58-92 | the `try` block: the pool, then the naming, then the gateway check, in source order, giving `NormalRecord` |
| `VpcBlueprint.VpcGenerator.NameSubnet` | scripts/vpc_blueprint.py:77-87 | the name and domain come from the template processor with the defaults as fallback, or not at all when that raises |
| `VpcBlueprint.VpcGenerator.CalculateNewPrefix` | scripts/vpc_blueprint.py:108-114 | the `while` loop of `_calculate_new_prefix` computes `NewPrefix` |
| `VpcBlueprint.DefaultName` | scripts/vpc_blueprint.py:82-86 | the default name `f"{vpc_name} Region {vlan_counter}"`; `NormalRecordDefaults` and `NormalRecordTemplateDefault` say when it is used |
| `VpcBlueprint.DefaultDomain` | scripts/vpc_blueprint.py:81-87 | the default domain `f"subdomain_{vlan_counter}.lan"`; `NormalRecordDefaults` and `NormalRecordTemplateDefault` say when it is used |

## Left out

- The `uuid` field (`scripts/vpc_blueprint.py:61`) is random, so records have no `uuid` field.
- The records' key order: a record is a datatype with named fields, not a dictionary.
- Addresses are numbers. The dotted-quad text of `str(subnet)`, `str(address)` and `_get_subnet_purpose`'s CIDR argument is not derived from them.
- The parsing of `vpc_cidr` by `ipaddress.ip_network` is not modelled. `GenerateSubnets` takes its result as a parameter: a valid block, or `None` for the `ValueError`.
- IPv6 is not modelled. The source hard-codes 32 at `scripts/vpc_blueprint.py:112`.
- Logging and `json.dumps` are left out. `process` is modelled up to the list of records it would serialize.
- Floating point is left out. `int(0.1 * hosts)` is the integer `StaticCount`, which agrees with the float for every host count from -1 to 2^32 - 2.
- `\w`, the whitespace `int()` strips and the digits `int()` accepts are ASCII only.
- `PyText.ParseInt`: accepts only the ASCII digits `0`-`9`. Python's `int()` also accepts every other Unicode decimal digit, such as Arabic-Indic digits, so `int("١")` is 1. The model returns `None` for such text, so a `vlan_range` written in those digits fails here but parses in the source.
- Dictionaries handed to the core are assumed to hold each key once, as Python dictionaries do wherever a lemma requires `DistinctKeys`.
- That resolution leaves the context unchanged holds by construction: a `Context` is a value.
- `scripts/terraform_data_external.py` and `lint_patch.py` are not part of this model. The first is an encoding shim, the second formatting tooling.
- The `__main__` blocks of both core files are not modelled (stdin, `print`, `sys.exit`).
- `VpcBlueprint.GenerateUnifi`: states the reserved record in full and the gateway and VLAN id of the other three. It does not state their names, which come from resolving the template, so it does not prove the test's claim that their name is not "Teleport VPN server".
- `VpcBlueprint.GenerateTwoSubnets`: does not state the resolved `domain == "Test VPC.lan"`. The template text is not resolved concretely.
- `Processor.ProcessedVpcNoTemplateKey`: holds only when no template itself holds a `template` key, because such a key would be merged into the output.
- `ResolveSubstitutesEachToken`: covers only text whose literal `{`s are each followed by a character that is not `\w`. A `{` right before a token, or at the end of literal text, can join the replacement into a new token that a later replacement rewrites (`ResolveFormsNewToken`), so no piece-by-piece reference holds there. The premise also needs the values bound to the text's own names to substitute to text without `{`; `RecordTextSubstitutes` shows that a record's context meets it when those names are bound to plain values. Such text is resolved by `ResolveText` as the source does it.
- `PyValues.EscapeChar`: non-ASCII characters are written as themselves. Python escapes the non-printable ones, which depends on the Unicode database.
