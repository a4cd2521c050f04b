# Pagination window and user helpers of django-common

This project models two pieces of a small Django helper library.

- `utils/paginator.py`: a `Paginator` subclass. It is meant never to fail on
  an out-of-range or malformed page number (the exceptions are listed under
  "Left out"). Each page it returns carries a short list of page links around
  the current page.
- `users/models.py`: the pieces of the custom user model that are not database
  plumbing. These are the name accessors, `__str__`, and the flags that
  `create_user` and `create_superuser` give a new user.

The model is split into these modules:

- `PyList` (py_list.dfy): the Python list operations the window uses. These are
  the `1..n` page list, `list.index`, and slicing with Python's bound rules:
  negative bounds count from the end, and all bounds are clipped.
- `PyStr` (py_str.dfy): `str.isdigit` restricted to ASCII, `int()` of a digit
  string, the decimal text of a number, and `str.partition`.
- `PageWindow` (page_window.dfy): `_modify_page`'s window as a pure function.
  The four branches are in the code's order.
- `PageWindowFacts` (page_window.dfy): lemmas about the window. They cover the
  structure, order, length and each branch, plus the docstring examples.
- `Paginator` (paginator.dfy): the type handling and clamping of `page()`, and
  the `allow_empty_first_page` default of `__init__`. It also has the classes
  `Paginator` and `Page`. Their methods assign the fields the source assigns.
- `Users` (users.dfy): the `User` record, `get_short_name`, `get_full_name`,
  `__str__` and the three user-creation functions.

`Range(a, b)` stands for the Python list `[a, a+1, ..., b]`.

The `_modify_page` docstring (utils/paginator.py:44-45 and 49-50) says the
window shows `per_side * 2 + 1` pages (when there are that many). The code does
not keep that promise for every `per_side`, and the model follows the code. Python slicing is modelled
for every `per_side`. With `per_side == 0`, the both-sides-saturated branch
computes `left_side[-0:]`, which is all of `left_side`. So the window is
`1..number`, not `[number]` (`PageWindowFacts.WindowPerSideZero`). The bound
is therefore proved only for `per_side >= 1` (`PageWindowFacts.WindowLength`).

When both sides are short, the `len_left < per_side` branch is the one taken
(`PageWindow.ChooseBranch`). No slice then cuts anything, and the window is
every page (`PageWindowFacts.WindowWhole`).

## Model

| member | source | states |
|---|---|---|
| `PyList.Range` | utils/paginator.py:62 | the page list has `max(0, hi - lo + 1)` entries, and entry `i` is `lo + i` |
| `PyList.IndexOf` | utils/paginator.py:63 | `list.index` returns the position of the first occurrence of the value |
| `PyList.SliceFrom` | utils/paginator.py:76 | `xs[i:]` is a suffix of `xs`; for negative `i` it has `min(-i, len)` entries, otherwise `max(0, len - i)` entries |
| `PyList.SliceTo` | utils/paginator.py:77 | `xs[:j]` is a prefix of `xs`; for `j >= 0` it has `min(j, len)` entries, otherwise `max(0, len + j)` entries |
| `PyStr.IsDigits` | utils/paginator.py:28 | `number.isdigit()`: true exactly for a non-empty string whose every character is an ASCII digit |
| `PyStr.DecimalValue` | utils/paginator.py:28 | `int(number)` of a digit string, most significant digit first; the result is 0 exactly when every digit is `0` |
| `PyStr.DecimalString` | utils/paginator.py:28 | the decimal text of a number is a non-empty digit string without a leading zero |
| `PyStr.DecimalRoundTrip` | utils/paginator.py:28 | `int()` of the decimal text of `n` is `n` |
| `PyStr.LeadingZeroIgnored` | utils/paginator.py:28 | a leading `0` does not change the value `int()` reads |
| `PyStr.Zeros` | utils/paginator.py:28 | the zero padding of length `k` has `k` characters, all `0` |
| `PyStr.LeadingZerosIgnored` | utils/paginator.py:28 | any number of leading zeros keeps a digit string a digit string and does not change the value `int()` reads |
| `PyStr.Partition` | users/models.py:55 | `head + separator + tail` rebuilds the string; `head` has no separator; `separator` is the separator when it occurs and empty otherwise, and then `tail` is empty |
| `PageWindow.ChooseBranch` | utils/paginator.py:71-87 | each branch is taken exactly when its guard holds and no earlier guard holds; the last branch is reached exactly when `len_left >= per_side` and `len_right < per_side`, so the four branches cover every input |
| `PageWindow.KeptSides` | utils/paginator.py:71-87 | in every branch, the kept left side is a suffix of `left_side` and the kept right side is a prefix of `right_side` |
| `PageWindow.PagesAround` | utils/paginator.py:62-66 | page `number` is in the page list at index `number - 1`; the slices before and after it are `Range(1, number - 1)` and `Range(number + 1, num_pages)` |
| `PageWindow.PageWindowOf` | utils/paginator.py:62-89 | `page_range == left_side + [number] + right_side`; `left_side` is a suffix of `Range(1, number - 1)` and `right_side` is a prefix of `Range(number + 1, num_pages)` |
| `PageWindowFacts.KeptSidesLengths` | utils/paginator.py:71-87 | for `per_side >= 1`, the number of pages kept per side in each branch: `per_side` each when both sides are long enough; otherwise the short side is kept whole and the other keeps `min(its length, 2 * per_side - short length)` |
| `PageWindowFacts.WindowContiguous` | utils/paginator.py:65-89 | the window is the contiguous run `Range(number - len(left_side), number + len(right_side))` inside `1..num_pages` |
| `PageWindowFacts.WindowOrdered` | utils/paginator.py:89 | `page_range` is strictly ascending and within `1..num_pages`; it holds `number` exactly once, just after `left_side` |
| `PageWindowFacts.WindowLength` | utils/paginator.py:71-89 | for `per_side >= 1`, `len(page_range) == min(2 * per_side + 1, num_pages)` |
| `PageWindowFacts.WindowSaturated` | utils/paginator.py:71-77 | with at least `per_side >= 1` pages on both sides, each side keeps exactly the `per_side` pages next to `number` |
| `PageWindowFacts.WindowLeftShort` | utils/paginator.py:79-82 | a short left side is kept whole; the right side makes up the difference, so the window is `Range(1, min(num_pages, 2 * per_side + 1))` |
| `PageWindowFacts.WindowRightShort` | utils/paginator.py:84-87 | a short right side with a full left side is kept whole; the left side makes up the difference, so the window is `Range(max(1, num_pages - 2 * per_side), num_pages)` |
| `PageWindowFacts.WindowWhole` | utils/paginator.py:79-87 | when `num_pages <= 2 * per_side`, `page_range` is every page `1..num_pages` |
| `PageWindowFacts.WindowPerSideZero` | utils/paginator.py:75-77 | with `per_side == 0`, `left_side` is every page before `number`, `right_side` is empty, and the window is `1..number` |
| `PageWindowFacts.DocstringExamples` | utils/paginator.py:44-59 | 15 pages, page 9: `[5..8]`, `[10..13]`, range `[5..13]`; 15 pages, page 4: `[1..3]`, `[5..9]`, range `[1..9]`; 9 pages, page 4: the same |
| `Paginator.WithAllowEmptyDefault` | utils/paginator.py:13-15 | `allow_empty_first_page` is always present; it is `True` when the caller left it out, and any given value is kept; every other keyword argument is unchanged |
| `Paginator.AllowEmptyDefaultIdempotent` | utils/paginator.py:14-15 | applying the default to keyword arguments that already have it changes nothing |
| `Paginator.NormalisationExamples` | utils/paginator.py:27-35 | with 10 pages, 0 becomes page 1 and 999 becomes page 10; `"abc"` and `""` mean page 1; `"07"` is page 7 |
| `Paginator.Coerce` | utils/paginator.py:27-30 | only a value that is neither an int nor a string is a `TypeError`; an int is kept; a non-digit string (including `""`) becomes 1; a digit string gives the number it denotes in decimal |
| `Paginator.DecimalPageRoundTrip` | utils/paginator.py:27-28 | the decimal text of a page number coerces back to that number |
| `Paginator.ZeroPaddedPageRoundTrip` | utils/paginator.py:27-28 | the decimal text of a page number with any number of leading zeros (`"007"`) coerces to that number |
| `Paginator.Clamp` | utils/paginator.py:32-35 | the result is in `1..num_pages`; numbers `<= 0` give 1; numbers past the end give `num_pages`; in-range numbers are unchanged |
| `Paginator.ClampIdempotent` | utils/paginator.py:32-35 | clamping twice is the same as clamping once |
| `Paginator.Page.constructor` | utils/paginator.py:37 | the page the base class returns has the given number and no window attributes yet |
| `Paginator.Paginator.constructor` | utils/paginator.py:13-17 | the stored keyword arguments are the caller's with the `allow_empty_first_page` default applied |
| `Paginator.Paginator.ModifyPage` | utils/paginator.py:41-91 | `per_side` defaults to 4; assigns the window's `left_side` and `right_side` to the given page; sets `page_range = left_side + [number] + right_side`; returns the same page |
| `Paginator.Paginator.Page` | utils/paginator.py:19-39 | `per_side` defaults to 4; a `TypeError` exactly for a number of the wrong type; otherwise a new page whose number is the clamped, coerced number and whose window fields are the window around it |
| `Users.FullName` | users/models.py:57-58 | `get_full_name` returns the stored `full_name` unchanged |
| `Users.Str` | users/models.py:51-52 | `__str__` returns the stored e-mail unchanged |
| `Users.ShortName` | users/models.py:54-55 | the result is a prefix of `full_name` without a space, followed in `full_name` by a space or by nothing |
| `Users.ShortNameUnique` | users/models.py:55 | any space-free prefix of `full_name` that ends at a space or at the end of the name is the short name |
| `Users.ShortNameCases` | users/models.py:55 | a name without a space is its own short name; a name starting with a space has an empty short name |
| `Users.CreateUserWith` | users/models.py:15-26 | the new user is active; it has the given staff and superuser flags, the normalised e-mail and the extra fields; login and join time are `now`; its password is unusable exactly when none was given, and otherwise is the hash of the given one |
| `Users.CreateUser` | users/models.py:28-29 | an active user that is neither staff nor superuser |
| `Users.CreateSuperuser` | users/models.py:31-32 | an active user that is both staff and superuser, with the normalised e-mail; the password argument is required but may be `None`, which leaves the password unusable, and otherwise it is hashed |
| `Users.SuperuserDiffersOnlyInFlags` | users/models.py:28-32 | for the same arguments, `create_superuser` builds what `create_user` builds, except that `is_staff` and `is_superuser` are set |

## Left out

- The base paginator's own work is not modelled. This covers the `num_pages`
  computation (orphans, ceiling division), the object-list slicing in
  `super().page(number)`, and its `EmptyPage` error. The page count is a
  parameter of at least 1. That is what `allow_empty_first_page = True`
  guarantees; a caller who passes `False` with an empty list gets 0 pages,
  and that case is not modelled.
- `Paginator.Paginator.ModifyPage` requires `number` to be in `1..num_pages`.
  `page()` only calls it after clamping. A direct call with another number
  would raise `ValueError` from `list.index` in the source; that is not
  modelled.
- `str.isdigit` is restricted to ASCII digits. Python also accepts other
  Unicode digits, some of which `int()` then rejects with `ValueError`.
  Python's limit on the length of digit strings that `int()` converts is not
  modelled either.
- The `Page` class holds only the number and the three window attributes. The
  object list and the back-reference to the paginator belong to the framework.
- `normalize_email` belongs to the framework's base manager, so it is a
  function parameter. `set_password` is kept symbolic: the record stores which
  raw password was hashed, or that the password is unusable. Hashing and
  `save()` are not modelled.
- `now()` is read twice in `_create_user`, for `last_login` and
  `date_joined`. The model passes one timestamp for both.
- `Users.CreateUserWith` does not model arbitrary keyword names in
  `extra_fields`. It takes only `full_name` and `is_verified`, the model's
  remaining fields. So the `TypeError` Python raises when `extra_fields`
  repeats an explicit argument such as `is_staff` is not modelled.
- `send_verification_mail` (template rendering, URL reversing, token HMAC and
  e-mail sending) is I/O.
- users/views.py, users/forms.py, users/admin.py, users/urls.py, users/utils.py
  and the migration are framework glue with no algorithm. They are not part of
  this model.
