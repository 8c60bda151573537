# Minima theme hooks in Dafny

Minima is a theme for a content-management system. Before a template renders, the
host passes the template's display variables by reference to the theme's
preprocess, process and alter hooks. Those hooks rewrite class lists, attributes
and head elements. This project models those hooks in `template.php`:

- `minima_preprocess_html` rebuilds the body class list and sets the `<html>` attributes.
- `minima_process_html_tag` prunes redundant attributes from `style` and `script` tags.
- `minima_html_head_alter` simplifies the content-type meta tag to a `charset` attribute.
- `minima_preprocess_page` chooses the element that wraps the site name.
- `minima_preprocess_region` chooses a region's wrapper, layout flags, layout class,
  `role` and theme-hook suggestions.
- `minima_preprocess_block` assembles the block's box classes and title.
- `minima_preprocess_menu_link` maps core state classes to `is-*` classes.

Each hook is a method of a class (`HtmlVariables`, `HtmlTagVariables`, `HtmlHead`,
`PageVariables`, `RegionVariables`, `BlockVariables`, `MenuLinkVariables`). The
class's fields are the entries of `$variables` (or `$head`) that the hook reads or
writes. The method updates them in place. Its `ensures` ties the new state to a
specification function of the old state. The lemmas and the functions' own
contracts then state what the theme promises: which classes appear, in what order,
what is removed, and what stays untouched.

Module `Php` (`php.dfy`) holds the PHP built-ins the hooks use:
- `strpos(...) === 0` as a prefix test;
- `empty()` on a string;
- `str_replace` as one left-to-right scan.

Module `Template` (`template.dfy`) holds the hooks.

The host supplies some values through code that is not part of this model. They
come in as parameters:
- the keys of `menu_get_menus()`, as `menuNames`;
- `drupal_html_class`, as the function `htmlClass`;
- `arg(0, request_path())`, as `pathArg0`;
- the id `drupal_html_id` returns for a region, as `htmlId`;
- `drupal_is_front_page()`, as `isFrontPage`;
- which regions of `page` are non-empty, as the field `filledRegions`.

Two places where the text and the code disagree; the model follows the code:
- The menu-link hook's comment speaks of an `s-` prefix, but the code emits
  `is-active`, `is-expanded` and `is-collapsed`.
- `template.php` contains no pager window calculation, so a pager is not part of
  this model.

## Model

| member | source | states |
|---|---|---|
| `Template.BodyClasses` | template.php:49-68 | The body class list holds exactly 2 classes, plus one for each filled `secondary`/`tertiary` region, plus one section class off the front page. `front`/`not-front` comes first and `logged-in`/`not-logged-in` second. `secondary` comes before `tertiary`. The section class comes last and only when the page is not the front page. |
| `Template.HtmlVariables.Preprocess` | template.php:31-69 | `html_attributes_array` becomes exactly `{lang, dir}` from the language. The class list is replaced (not extended) by `BodyClasses` of the page's flags and the section class `htmlClass("section-" + arg 0)`. No other variable changes. |
| `Template.PrunedTag` | template.php:91-99 | For a `style` or `script` element: `#value_prefix`, `#value_suffix` and the `type` attribute are gone. A `media` attribute is gone exactly when it was `all`. Every other property and attribute keeps its value. Any other element is returned unchanged. |
| `Template.PrunedTagIdempotent` | template.php:91-99 | Pruning a pruned element changes nothing. |
| `Template.HtmlTagVariables.Process` | template.php:88-100 | The element after the hook is `PrunedTag` of the element before it. |
| `Template.SimplifiedHead` | template.php:105-113 | When the content-type meta element has a `content` attribute, its attributes become exactly `{charset}`. The charset is the content with every `text/html; charset=` removed. The element's other properties and every other head element are unchanged. Without `content`, the head is unchanged. |
| `Template.SimplifiedHeadIdempotent` | template.php:107-112 | A second alter changes nothing: the simplified meta element no longer has `content`. |
| `Template.SimplifiedHeadUtf8` | template.php:107-112 | `content="text/html; charset=utf-8"` becomes exactly `charset="utf-8"`. |
| `Template.HtmlHead.Alter` | template.php:105-113 | `$head` after the hook is `SimplifiedHead` of `$head` before it. |
| `Php.StrReplaceWithoutOccurrence` | template.php:110 | `str_replace` leaves a subject with no occurrence of the search string unchanged. |
| `Php.StrReplaceLeading` | template.php:110 | A leading occurrence is replaced, and the scan resumes right after it. |
| `Php.StrReplaceDeletionShrinks` | template.php:110 | Removing occurrences never lengthens the string. If the search string occurs, it shortens the string by at least the search string's length. |
| `Template.BrandingName` | template.php:142-145 | The branding name is the opening tag `<w class="branding__name">`, then the site name unchanged, then `</w>`. `w` is `h1` on the front page and `div` otherwise. The markup starts with `<h1` exactly on the front page. |
| `Template.PageVariables.Preprocess` | template.php:141-148 | `branding_name` becomes `BrandingName(site_name, front page)`. `branding_slogan` becomes the site slogan. Nothing else changes. |
| `Template.RegionWrapper` | template.php:163-193 | The wrapper is FALSE exactly for `header`. It is `nav` exactly for `navigation` and `footer` exactly for `footer`. It is `div` for every other region. |
| `Template.LayoutClasses` | template.php:179-207 | Every region gets exactly one layout class: `grid__cell` exactly for `secondary`/`tertiary`, `container` exactly for the container regions, and `grid` exactly when neither holds. |
| `Template.RegionVariables.Preprocess` | template.php:159-208 | `id` is set to the host id. `role=navigation` is set only for `navigation`. The fields `wrapper`, `container` and `grid_cell` follow the region name. The class list gains exactly `LayoutClasses(region)` at its end. `region__no_wrapper` is put in front of the existing suggestions, in their order, exactly for `page_top`/`page_bottom`; other regions keep their suggestions. |
| `Template.ThemeBlockClasses` | template.php:234-240 | The kept classes are incoming classes, none of them beginning with `block`. There are no more of them than came in. |
| `Template.ThemeBlockClassesKeepOthers` | template.php:235-239 | Every incoming class that does not begin with `block` is kept. |
| `Template.ThemeBlockClassesAppend` | template.php:235-240 | Filtering a concatenation gives the concatenation of the filtered parts, so kept classes stay in their original order. |
| `Template.ThemeBlockClassesOfThemeClasses` | template.php:235-240 | A list with no class beginning with `block` is kept whole and in order. |
| `Template.BoxClasses` | template.php:221-240 | The block classes start `grid__cell`, `box`. Next comes `box--menu` exactly for a menu block. Next come the kept incoming classes, in order. No class beginning with `block` appears, and every incoming class not beginning with `block` does. |
| `Template.BlockVariables.Preprocess` | template.php:218-241 | The block's class attribute becomes `BoxClasses`. The title and content class lists become `box__title` and `box__content`. The title is the subject, or `''` when the subject is PHP-empty (`""` or `"0"`). `classes_array` and the block are unchanged. |
| `Template.StateClasses` | template.php:279-291 | Only `is-active`, `is-expanded` and `is-collapsed` come out, at most one per incoming class. |
| `Template.MenuItemClasses` | template.php:276-292 | The menu item's classes start with `menu__item`. Every later entry is one of the three `is-*` classes. |
| `Template.StateClassesFollowCoreStates` | template.php:279-291 | There is exactly one output state class per incoming `active-trail`/`expanded`/`collapsed`. The i-th output is the mapping of the i-th such class, in input order. |
| `Template.StateClassCount` | template.php:279-291 | Each `is-*` class occurs exactly as often as its core class occurs in the input. `is-active` comes only from `active-trail`, and other input classes contribute nothing. |
| `Template.StateClassInjective` | template.php:280-289 | Distinct core classes map to distinct `is-*` classes. |
| `Template.MenuLinkVariables.Preprocess` | template.php:275-296 | `#attributes.class` becomes `MenuItemClasses` of the incoming list; an unset list counts as empty. `#localized_options.attributes.class` is unset. Every other attribute, link attribute and element property is unchanged. |

## Left out

- `minima_theme` (template.php:6-17) is not modelled. It registers a template with the host's theme registry.
- `minima_process_html` (template.php:79-83) is not modelled. It only calls the host's attribute serialiser, `drupal_attributes`, which is not part of this model.
- The `X-UA-Compatible` header in `minima_preprocess_html` (template.php:43-45) is not modelled. It is HTTP output.
- Logo handling in `minima_preprocess_page` (template.php:126-139) is not modelled, so `branding_logo` is not set. It uses `parse_url`, `file_exists` and the host's image renderer.
- The hooks `minima_preprocess_node`, `minima_preprocess_comment`, `minima_preprocess_fieldset` and `minima_page_alter` are not modelled. Their bodies are empty.
- `templates/page.tpl.php` and `templates/box.tpl.php` are not modelled. They print the prepared variables and test only whether they are present.
- The internals of `drupal_html_id`, `drupal_html_class`, `arg`/`request_path`, `menu_get_menus` and `drupal_is_front_page` are not modelled. They are host code, passed in as parameters.
- PHP's loose `==` and `in_array` are modelled as exact string equality and set membership. The case labels are non-numeric, so they compare as strings. A numeric menu name would become an integer key in PHP; this is not modelled.
- Maps do not keep PHP's array key order, so the order of attributes (for example `id` before `role`) is not modelled. List order is modelled wherever the hooks append.
- Element properties and attribute values are modelled as strings. Nested render arrays (for example a menu link's `#below`) and array-valued attributes appear only as opaque entries that the hooks leave unchanged.
- A NULL block subject is modelled as the empty string. PHP's `empty()` treats both the same way.
- An unset array is modelled as an empty one. `unset` creates no intermediate arrays, and `foreach` over an unset class list adds nothing. The PHP warning that `foreach` raises there is not modelled.
- The `$hook` arguments are not modelled. No hook reads them.
