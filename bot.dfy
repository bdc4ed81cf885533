/**
 * The bot's handlers over its process-wide per-chat settings (`user_state`):
 * the template button callback, the `/width` and `/height` commands, and the
 * photo handler, which reads the chat's settings, resolves the template and
 * runs the batch. Telegram transport (downloads, replies, keyboards) is not
 * modelled: the downloaded entries of `message.photo` (the available sizes
 * of one sent photo) come in as byte strings and replies go out as
 * a `Reply` value.
 */
module Bot {
  import opened Wrappers
  import opened PyStr
  import opened PyDict
  import opened Layout
  import opened Templates
  import opened Batch

  /** One chat's settings dict, with the optional keys "template" and "scale_by". */
  type ChatState = map<string, string>

  /** `user_state`: chat id to that chat's settings dict. */
  type State = map<int, ChatState>

  const TemplateKey: string := "template"
  const ScaleKey: string := "scale_by"
  const DefaultTemplate: string := "1"
  const CallbackPrefix: string := "template_"

  /** `user_state.get(chat_id, {}).get("template", "1")`. */
  function TemplateOf(state: State, chat: int): (t: string)
    ensures chat in state && TemplateKey in state[chat] ==> t == state[chat][TemplateKey]
    ensures chat !in state || TemplateKey !in state[chat] ==> t == DefaultTemplate
  {
    Get(Get(state, chat, map[]), TemplateKey, DefaultTemplate)
  }

  /** `user_state.get(chat_id, {}).get("scale_by", "width")`. */
  function ScaleOf(state: State, chat: int): (s: string)
    ensures chat in state && ScaleKey in state[chat] ==> s == state[chat][ScaleKey]
    ensures chat !in state || ScaleKey !in state[chat] ==> s == ScaleByWidth
  {
    Get(Get(state, chat, map[]), ScaleKey, ScaleByWidth)
  }

  /**
   * Since the callback prefix ends with the separator, the data of a template
   * button always has a second `_`-separated field: the text between the
   * prefix and the next `_`.
   */
  lemma CallbackFields(data: string)
    requires StartsWith(data, CallbackPrefix)
    ensures |Split(data, '_')| >= 2
    ensures Split(data, '_')[1] == TakeUntil(data[|CallbackPrefix|..], '_')
  {
    var rest := data[|CallbackPrefix|..];
    assert data == "template" + ['_'] + rest;
    SplitAfterSeparator("template", '_', rest);
    SplitHead(rest, '_');
  }

  /**
   * The template id carried by callback data: `data.split("_")[1]` when the
   * data starts with "template_", and nothing otherwise. Parsing never fails
   * on prefixed data.
   */
  function ParseCallback(data: string): (r: Option<string>)
    ensures r.Some? <==> StartsWith(data, CallbackPrefix)
    ensures r.Some? ==> r.value == TakeUntil(data[|CallbackPrefix|..], '_') && '_' !in r.value
  {
    if StartsWith(data, CallbackPrefix) then
      CallbackFields(data);
      Some(Split(data, '_')[1])
    else
      None
  }

  /**
   * Setting one key of a chat's entry is seen by the lookups of that key for
   * that chat, and by no other lookup: the other key of the same chat and
   * every key of every other chat read as before.
   */
  lemma AssignVisibility(state: State, chat: int, key: string, value: string)
    requires key == TemplateKey || key == ScaleKey
    ensures var s := SetDefaultAssign(state, chat, key, value);
      (TemplateOf(s, chat) == if key == TemplateKey then value else TemplateOf(state, chat)) &&
      (ScaleOf(s, chat) == if key == ScaleKey then value else ScaleOf(state, chat)) &&
      (forall c :: c != chat ==> TemplateOf(s, c) == TemplateOf(state, c) && ScaleOf(s, c) == ScaleOf(state, c))
  {
  }

  /** A chat that never chose anything reads as template "1", scaled by width. */
  lemma FreshChatDefaults(state: State, chat: int)
    requires chat !in state || state[chat] == map[]
    ensures TemplateOf(state, chat) == DefaultTemplate && ScaleOf(state, chat) == ScaleByWidth
  {
  }

  /**
   * A button whose id is not in the template table is accepted and stored,
   * but every later photo of that chat is answered with "Template not found".
   */
  lemma UnlistedTemplateNotFound(state: State, chat: int, data: string, files: map<string, Size>)
    requires ParseCallback(data).Some? && ParseCallback(data).value !in TemplateOptions
    ensures ResolveTemplate(TemplateOf(SetDefaultAssign(state, chat, TemplateKey, ParseCallback(data).value), chat), files).None?
  {
  }

  /** What the photo handler sends back. */
  datatype Reply = TemplateNotFound | Photos(outputs: seq<Output>)

  /** The process-wide settings store and the handlers that read and update it. */
  class UserState {
    var chats: State

    /** `user_state = {}`. */
    constructor ()
      ensures chats == map[]
    {
      chats := map[];
    }

    /**
     * `handle_buttons`: template button data selects that template for the
     * chat, creating the chat's entry if needed and keeping its scale mode;
     * any other data changes nothing. The selected id is returned for the
     * confirmation message.
     */
    method HandleButtons(chat: int, data: string) returns (selected: Option<string>)
      modifies this
      ensures selected == ParseCallback(data)
      ensures selected.None? ==> chats == old(chats)
      ensures selected.Some? ==> chats == SetDefaultAssign(old(chats), chat, TemplateKey, selected.value)
      ensures selected.Some? ==> TemplateOf(chats, chat) == selected.value
      ensures ScaleOf(chats, chat) == ScaleOf(old(chats), chat)
      ensures forall c :: c != chat ==>
        TemplateOf(chats, c) == TemplateOf(old(chats), c) && ScaleOf(chats, c) == ScaleOf(old(chats), c)
    {
      if StartsWith(data, CallbackPrefix) {
        CallbackFields(data);
        var templateId := Split(data, '_')[1];
        AssignVisibility(chats, chat, TemplateKey, templateId);
        chats := SetDefaultAssign(chats, chat, TemplateKey, templateId);
        selected := Some(templateId);
      } else {
        selected := None;
      }
    }

    /** `/width`: scale this chat's photos by width; nothing else changes. */
    method Width(chat: int)
      modifies this
      ensures chats == SetDefaultAssign(old(chats), chat, ScaleKey, ScaleByWidth)
      ensures ScaleOf(chats, chat) == ScaleByWidth
      ensures TemplateOf(chats, chat) == TemplateOf(old(chats), chat)
      ensures forall c :: c != chat ==>
        TemplateOf(chats, c) == TemplateOf(old(chats), c) && ScaleOf(chats, c) == ScaleOf(old(chats), c)
    {
      AssignVisibility(chats, chat, ScaleKey, ScaleByWidth);
      chats := SetDefaultAssign(chats, chat, ScaleKey, ScaleByWidth);
    }

    /** `/height`: scale this chat's photos by height; nothing else changes. */
    method Height(chat: int)
      modifies this
      ensures chats == SetDefaultAssign(old(chats), chat, ScaleKey, "height")
      ensures ScaleOf(chats, chat) == "height"
      ensures TemplateOf(chats, chat) == TemplateOf(old(chats), chat)
      ensures forall c :: c != chat ==>
        TemplateOf(chats, c) == TemplateOf(old(chats), c) && ScaleOf(chats, c) == ScaleOf(old(chats), c)
    {
      AssignVisibility(chats, chat, ScaleKey, "height");
      chats := SetDefaultAssign(chats, chat, ScaleKey, "height");
    }

    /**
     * `handle_images`: look up the chat's template and scale mode; if the
     * template id is not in the table or its file is missing, answer
     * "Template not found" and process nothing; otherwise process every
     * downloaded entry of `message.photo` (each available size of the sent
     * photo, not only the largest) at the default size and send one result
     * per entry, in order. The settings are only read.
     */
    method HandleImages(chat: int, images: seq<Bytes>, files: map<string, Size>, remove: Bytes -> Cutout)
      returns (reply: Reply)
      ensures reply.TemplateNotFound? <==> ResolveTemplate(TemplateOf(chats, chat), files).None?
      ensures reply.Photos? ==>
        var path := TemplateOptions[TemplateOf(chats, chat)];
        path in files && |reply.outputs| == |images| &&
        forall i :: 0 <= i < |images| ==>
          reply.outputs[i] == Render(images[i], i, files[path], remove, ScaleOf(chats, chat), DefaultSize)
    {
      var templateId := TemplateOf(chats, chat);
      var scaleBy := ScaleOf(chats, chat);
      var templatePath := ResolveTemplate(templateId, files);
      if templatePath.None? {
        return TemplateNotFound;
      }
      var processed := ProcessAll(images, templatePath.value, files, remove, scaleBy, DefaultSize);
      reply := Photos(processed);
    }
  }
}
