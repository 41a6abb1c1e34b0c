/** The text check of web_telegram_forward.py (`send_message_to_telegram`): what is
    refused and what is actually handed to the Telegram Bot API. The send itself is
    not modelled. */
module TelegramForward {
  import opened Wrappers
  import opened Text

  const EmptyText: string := "empty text"

  /** Telegram's message limit, as the sender enforces it. */
  const MaxLength: nat := 4000

  /** The text sent for `text`, or the ValueError raised before sending. */
  function OutboundText(text: string): (r: Result<string, string>)
    ensures r.Err? <==> AllSpace(text)
    ensures r.Err? ==> r.error == EmptyText
    ensures r.Ok? ==> 0 < |r.value| <= MaxLength && !IsSpace(r.value[0])
    ensures r.Ok? ==> r.value <= Strip(text)
    ensures r.Ok? ==> (|Strip(text)| <= MaxLength <==> r.value == Strip(text))
    ensures r.Ok? ==> |r.value| == if |Strip(text)| <= MaxLength then |Strip(text)| else MaxLength
  {
    if text == "" || AllSpace(text) then Err(EmptyText)
    else
      var t := Strip(text);
      if |t| <= MaxLength then Ok(t) else Ok(t[..MaxLength])
  }

  /** A trimmed text within the limit goes out exactly as given. */
  lemma OutboundOfTrimmed(text: string)
    requires Trimmed(text) && |text| <= MaxLength
    ensures OutboundText(text) == Ok(text)
  {
    StripOfTrimmed(text);
  }
}
