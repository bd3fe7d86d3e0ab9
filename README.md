# View-name collection and poll recency, modelled in Dafny

This project models the two pieces of logic that belong to a Django tutorial
site (the rest of it is framework configuration):

- **The view-name collector** (`mysite/book/get_all_views.py`). A URL
  configuration is an ordered list of entries. Each entry is a resolver (an
  `include(...)` with its own `url_patterns`), a pattern bound to a view, or
  something else. `get_all_view_names` walks the entries depth-first and
  left-to-right. It appends each pattern's view name to the module-level list
  `VIEW_NAMES` and returns that list. Other entries are skipped.
  `url_views.dfy` defines entries as the datatype `Node` and gives the pure
  traversal `Flatten`. The global list is the field `viewNames` of the class
  `ViewNameCollector`. The recursive method `GetAllViewNames` is proved to
  leave `viewNames == old(viewNames) + Flatten(urlpatterns)`. Lemmas about
  `Flatten` relate it to independent definitions: which names are reachable
  (`Declares`), how many leaves there are (`LeafCount`), and how often each
  name occurs (`LeavesNamed`). The list accumulates across calls, as in the
  source; the model keeps that behaviour.
- **The poll records** (`mysite/polls/models.py`). `Question` and `Choice`
  are value records. `Question.WasPublishedRecently(now)` holds when
  `pubDate >= now - OneDay`. Instants are integer microseconds and
  `OneDay` is 86 400 000 000. The clock reading is passed in as `now`.

The records behind these operations are datatypes:

- `UrlViews.Node` is one URL entry: `Resolver(children)` for a `URLResolver` and its `url_patterns`, `Pattern(callbackName)` for a `URLPattern` and its view's `__name__`, and `Other` for anything else in the list (mysite/book/get_all_views.py:12-15).
- `Polls.Question(questionText, pubDate)` is the question record of mysite/polls/models.py:48-50.
- `Polls.Choice(question, choiceText, votes)` is the choice record of mysite/polls/models.py:59-62.

## Model

| member | source | states |
|---|---|---|
| UrlViews.ViewNameCollector.constructor | mysite/book/get_all_views.py:6 | the module-level list of view names starts empty |
| UrlViews.ViewNameCollector.GetAllViewNames | mysite/book/get_all_views.py:9-17 | after a call the list is its previous contents followed by the depth-first, left-to-right view names of the input. Old entries stay a prefix, exactly one name is added per reachable pattern, and the returned value is the list itself |
| UrlViews.NodeNames | mysite/book/get_all_views.py:12-16 | one entry contributes one name per pattern leaf it reaches: a resolver its children's names, a pattern its view name, anything else nothing |
| UrlViews.Flatten | mysite/book/get_all_views.py:11-16 | the pure traversal that the collector appends: one name per reachable pattern leaf, so the number of names equals the leaf count |
| UrlViews.FlattenAppend | mysite/book/get_all_views.py:11-16 | the names of a concatenated entry list are the names of the first part followed by those of the second, so the siblings are visited left to right |
| UrlViews.FlattenSnoc | mysite/book/get_all_views.py:11-16 | one more loop iteration appends exactly what that entry contributes |
| UrlViews.ResolverInlined | mysite/book/get_all_views.py:12-13 | a resolver contributes exactly the names of its children. They come after its earlier siblings and before any later sibling |
| UrlViews.OtherIgnored | mysite/book/get_all_views.py:12-16 | an entry that is neither a resolver nor a pattern contributes nothing and raises no error |
| UrlViews.FlattenMultiplicity | mysite/book/get_all_views.py:14-16 | duplicates are kept: each name occurs as often as there are reachable patterns whose view has that name |
| UrlViews.FlattenMembership | mysite/book/get_all_views.py:11-16 | a name is produced if and only if some pattern reachable through nested resolvers carries it |
| UrlViews.FlatConfiguration | mysite/book/get_all_views.py:14-16 | for a list of patterns without includes, the output has one name per entry, in entry order |
| UrlViews.AccumulationNotIdempotent | mysite/book/get_all_views.py:16-17 | when the input has a pattern, appending its names a second time gives a different list, so the global accumulation is not idempotent |
| UrlViews.CollectTwice | mysite/book/get_all_views.py:16-17 | two calls on the same configuration append its names twice. The list's contents after the second call differ from its contents after the first call whenever there is a pattern |
| UrlViews.BookUrls | mysite/book/urls.py:5-8 | fixture data for the routes at lines 6-7, bound to views book_list and book_login. Its contract states only that both entries are plain patterns, with no include |
| UrlViews.RootIncludingBookTwice | mysite/book/urls.py:13-16 | a root that includes the book routes twice has four pattern leaves |
| UrlViews.BookSiteViewNames | mysite/book/urls.py:13-16 | the book routes included twice flatten to book_list, book_login, book_list, book_login |
| UrlViews.LoadBookSite | mysite/book/get_all_views.py:6-20 | loading the module over a root with two book includes leaves the list book_list, book_login, book_list, book_login |
| Polls.Question.WasPublishedRecently | mysite/polls/models.py:52-53 | a question is recent if and only if at most one day (86 400 000 000 microseconds) has elapsed from its publication to now |
| Polls.ExactlyOneDayAgoIsRecent | mysite/polls/models.py:53 | the lower bound is inclusive: a publication exactly one day before now is recent |
| Polls.FutureIsRecent | mysite/polls/models.py:53 | there is no upper bound: a publication later than now is recent |
| Polls.OlderThanOneDayIsNotRecent | mysite/polls/models.py:53 | a publication more than one day before now is not recent |
| Polls.RecentIsMonotone | mysite/polls/models.py:53 | if a publication instant is recent, every later publication instant is recent too |
| Polls.NotRecentStaysNotRecent | mysite/polls/models.py:53 | once a question is no longer recent, it is not recent at any later clock reading |
| Polls.SavedThisSessionIsRecent | mysite/polls/models.py:86-153 | a question stamped with the clock when saved, and read back less than a day later, reports true |
| Polls.Question.Str | mysite/polls/models.py:55-56 | the body returns the question text, as `__str__` does |
| Polls.Choice.Str | mysite/polls/models.py:64-65 | the body returns the choice text, as `__str__` does |

## Left out

- Loading the root URL configuration via `settings.ROOT_URLCONF` and the call made at import time (mysite/book/get_all_views.py:4-5,20). The configuration is an input to the model, and `LoadBookSite` stands in for the import.
- Reading `callback.__name__`. A pattern carries its view name as a string. A callable without `__name__` would raise `AttributeError`, and the model does not cover that.
- UrlViews.ViewNameCollector.GetAllViewNames: the returned value equals the list, but the model does not capture that Python returns the same list object. Later mutation through the returned reference would change the global, and the model does not show that aliasing.
- Cycles and Python's recursion limit. A Dafny datatype is well-founded, so every modelled configuration is finite and acyclic. The source has no cycle check, and a very deep include chain would hit `RecursionError`.
- `reverse()`, namespaces and the routing transcripts in mysite/book/get_all_views.py:22-227. They show the framework's resolver, not code of this repository.
- `timezone.now()` is a clock read, so it is passed in as `now`. Time zones are not modelled, because aware datetimes compare as instants. The errors raised for missing or naive dates are listed above.
- UrlViews.CollectTwice: in Python both calls return the same list object, so the two returned references are the same list and compare equal after the second call. The model returns two snapshots of the contents.
- Polls.Question.WasPublishedRecently: does not model the two `TypeError` cases of the comparison under time-zone support. The first is a `pub_date` of `None`, as in an unsaved question built without a date. The second is a naive `pub_date`, which cannot be compared with the aware `timezone.now()`. The model's `pubDate` is always a valid instant.
- Polls.Question.WasPublishedRecently: does not model the `OverflowError` that Python raises when `now - timedelta(days=1)` falls before `datetime.min` (year 1). The model uses unbounded integers for instants.
- ORM field declarations, defaults, foreign keys, saving and querying (mysite/polls/models.py, mysite/myapp/models.py, mysite/myapp2/models.py). These are schema consumed by the framework. `Choice.question` is kept as a plain field, and `votes` as an integer.
- The URL pattern lists in mysite/myurl/, mysite/polls/urls.py and mysite/book/urls.py are router configuration. Only the book routes appear, as input data. The views in mysite/book/views.py are HTTP handlers over framework calls. docs/faker.py holds only a transcript.
