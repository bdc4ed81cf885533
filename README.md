# Background-removal template bot — Dafny model

This project models the core of a Telegram bot (`bot.py`) that takes the photos
a user sends, removes their background, scales each cutout uniformly, centres
it on a chosen template and sends PNGs back. It sends one PNG per entry of
the message's `photo` list, which holds the available sizes of the one photo
sent, so a single photo comes back once per size.

What is modelled:

- **Per-chat settings** (`user_state`), a process-wide dict from chat id to a
  small dict with the optional keys `"template"` and `"scale_by"`. It is the
  class `Bot.UserState`, whose field `chats: map<int, map<string, string>>`
  is reassigned by the template-button callback (`HandleButtons`) and by the
  `/width` and `/height` commands (`Width`, `Height`). Each of them is Python's
  `setdefault(chat_id, {})[key] = value`, modelled once as
  `PyDict.SetDefaultAssign`. The photo handler reads the settings with the
  defaults template `"1"` and scale mode `"width"` (`Bot.TemplateOf`,
  `Bot.ScaleOf`).
- **Callback parsing**: data starting with `"template_"` selects
  `data.split("_")[1]`, with Python's `str.split` modelled in `PyStr.Split`.
  Other data is ignored.
- **Template resolution**: the fixed table `template_options` and the check
  that the id is listed and that its file exists (`Templates.ResolveTemplate`).
  Otherwise the handler answers "Template not found" and processes nothing.
- **Layout geometry** (`Layout`): the uniform resize where one side becomes
  `size` and the other is rounded down, then the centre offset
  `(t - n) // 2` with floor division, which may be negative. The cutout is
  pasted onto a fresh copy of the template. Images are modelled by their
  dimensions only.
- **The batch loop** (`Batch.ProcessAll`): it produces one output per input,
  in input order, named `result_<i+1>.png`. Output `i` depends only on input
  `i` and the template, and no two outputs share a name.

External parts are parameters. Background removal is a function
`remove: Bytes -> Cutout` that yields an image with a positive width and
height. The file system is a map `files` from existing paths to the loaded
template's dimensions. Downloaded photos are given as a sequence of byte
strings, and replies are returned as a `Bot.Reply` value.

## Model

| member | source | states |
|---|---|---|
| `PyStr.TakeUntil` | bot.py:135 | the result is the longest separator-free prefix of the input: a prefix, free of the separator, followed by the separator or by the end |
| `PyStr.Split` | bot.py:135 | `str.split` with a one-character separator always yields at least one field |
| `PyStr.JoinSplit` | bot.py:135 | joining the fields of a split with the separator gives back the original string |
| `PyStr.SplitFieldsFree` | bot.py:135 | no field of a split contains the separator |
| `PyStr.SplitHead` | bot.py:135 | the first field of a split is the text before the first separator |
| `PyStr.SplitAfterSeparator` | bot.py:135 | splitting `a + sep + b`, where `a` has no separator, yields `a` followed by the fields of `b` |
| `PyStr.DigitChar` | bot.py:76 | the character for digit `d` is a decimal digit whose value is `d` |
| `PyStr.NatToString` | bot.py:76 | the decimal rendering of an integer is a non-empty string of digits with no leading zero |
| `PyStr.ParseNatToString` | bot.py:76 | reading back the decimal rendering of `n` gives `n` |
| `PyStr.NatToStringInjective` | bot.py:76 | different numbers have different decimal renderings |
| `PyDict.SetDefaultAssign` | bot.py:136 | `setdefault(k, {})[key] = value` creates the entry if it is missing and binds `key` to `value`. The entry's other keys and every other entry are kept |
| `PyDict.SetDefaultAssignIdempotent` | bot.py:134-148 | pressing the same command or button twice leaves the same state as pressing it once |
| `PyDict.SetDefaultAssignCommutes` | bot.py:134-148 | choosing a template and choosing a scale mode commute, so their order does not matter |
| `Layout.ResizedSize` | bot.py:62-67 | scaling by `"width"` makes the width exactly `size`, and the height is the largest integer at most `size*h/w`. Any other mode makes the height exactly `size`, and the width is the largest integer at most `size*w/h` |
| `Layout.CentreOffset` | bot.py:70-71 | the offset is Python's `(t - n) // 2`: `2x <= t - n <= 2x + 1`. When the cutout fits, `0 <= x`, `x + n <= t` and the two margins differ by at most one. When it does not fit, `x < 0` |
| `Layout.CentreOffsetUnique` | bot.py:70-71 | the floor-division bounds determine the offset uniquely |
| `Layout.Compose` | bot.py:62-73 | the composite is a fresh canvas with the template's dimensions, holds the resized cutout, and centres it on both axes with floor division |
| `Layout.ComposeCentred` | bot.py:62-73 | the layer lies inside the canvas exactly when the resized cutout fits on both axes. On a fitting axis the margins differ by at most one pixel. On an overflowing axis the offset is negative |
| `Templates.ResolveTemplate` | bot.py:116-117 | a template id resolves exactly when it is a key of `template_options` and its file exists, and then it resolves to that file |
| `Templates.ResolveOnlyListed` | bot.py:43-47 | only the ids `"1"` and `"2"` can resolve, to `template1.png` and `template2.png`, and each does exactly when its file exists |
| `Batch.ResultName` | bot.py:76 | the name is `result_` followed by the decimal number and `.png` |
| `Batch.ResultNameInjective` | bot.py:76 | different positions get different file names |
| `Batch.ProcessAll` | bot.py:50-81 | there is exactly one output per input, in input order. Output `i` is named `result_{i+1}.png` and is the cutout of input `i` composed onto the loaded template, which is never changed. No two outputs share a name |
| `Bot.TemplateOf` | bot.py:113 | a chat's template is the stored `"template"` value, or `"1"` when the chat or the key is missing |
| `Bot.ScaleOf` | bot.py:114 | a chat's scale mode is the stored `"scale_by"` value, or `"width"` when the chat or the key is missing |
| `Bot.FreshChatDefaults` | bot.py:113-114 | a chat with no entry, or with an empty entry, reads as template `"1"` scaled by width |
| `Bot.CallbackFields` | bot.py:134-135 | data starting with `"template_"` always has a second `_`-separated field, so `split("_")[1]` never fails. That field is the text after the prefix up to the next `_` |
| `Bot.ParseCallback` | bot.py:134-135 | an id is found exactly when the data starts with `"template_"`. The id is the text after the prefix up to the next `_`, and it contains no `_` |
| `Bot.AssignVisibility` | bot.py:136 | setting one key for a chat changes only that key's lookup for that chat. The other key of that chat and both keys of every other chat read as before |
| `Bot.UnlistedTemplateNotFound` | bot.py:113-119 | selecting an id that is not in the template table is stored, but that chat's photos then get "Template not found" |
| `Bot.UserState.constructor` | bot.py:99 | the store starts empty |
| `Bot.UserState.HandleButtons` | bot.py:127-137 | template-button data stores the parsed id as the chat's template, creating the entry if needed. The chat's scale mode and every other chat are kept. Any other data leaves the store unchanged |
| `Bot.UserState.Width` | bot.py:140-143 | `/width` sets only this chat's `scale_by` to `"width"`, creating the entry if needed. Its template and every other chat are kept |
| `Bot.UserState.Height` | bot.py:145-148 | `/height` sets only this chat's `scale_by` to `"height"`, creating the entry if needed. Its template and every other chat are kept |
| `Bot.UserState.HandleImages` | bot.py:101-124 | the reply is "Template not found" exactly when the chat's template id does not resolve. Otherwise it has one output per downloaded entry of `message.photo` (per available size of the photo), in order, each composed with the chat's scale mode at size 1200 onto that template. The settings are only read |

## Left out

- Telegram transport is not modelled. This covers `start`, `template` (the keyboard offering `template_1` and `template_2`), `reply_text`, `reply_photo`, `edit_message_text`, `query.answer`, `get_file`, `download_as_bytearray` and handler registration. It is network I/O. Downloaded photos are an input sequence, and replies are the returned `Reply` or selected id.
- `handle_images` downloads every entry of `message.photo`, that is every available size of the one photo sent, although the comment at bot.py:105 says it gets the highest-resolution image. The model follows the code: it takes the list of downloaded byte strings as given and processes each, so one photo yields one result per size. Which entry would be the largest is Telegram metadata and is not modelled.
- The FastAPI keep-alive endpoint, the asyncio start-up and the loading of `TOKEN` from the environment are not modelled. They are process supervision and configuration. Each handler is modelled as one atomic step: none of them awaits between reading and writing `user_state`.
- `rembg.remove` is a foreign machine-learning call. It is the parameter `remove`, and all the model knows is that its result has a positive width and height.
- PIL pixel work is not modelled: decoding, `convert("RGBA")`, the LANCZOS filter, alpha-masked `paste` with clipping at the canvas edge, and PNG encoding. Images are their dimensions. A composite is the template's dimensions plus the position and size of the pasted layer.
- Layout.ResizedSize: it idealises `int((size / w) * h)` as the exact integer quotient `size*h/w`. Floating-point rounding in the source can differ from it by one when the exact quotient is a whole number, or nearly one.
- Layout.ResizedSize: a computed side of 0 (an extremely wide or tall cutout) is passed on as 0. Pillow's `resize` rejects a 0 side with `ValueError`, so `handle_images` aborts and sends nothing, while the model still returns `Photos` with that composite.
- `os.path.exists`, `Image.open` of the template and `os.makedirs("images")` are file-system effects. They are the parameter `files`: the set of existing paths, with the dimensions of the image each holds. Errors opening an existing template file are not modelled.
- `bot.py` has no dimension-text parsing, no image queue, no enhancement step, no "dimension not set" reply and no per-image failure isolation, so none is modelled. An exception in one image aborts the whole handler, and no such failure path is modelled because all modelled steps are total.
