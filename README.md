# Chat request shaping of a PDF question-answering assistant

This project models the request-shaping core of the chat endpoint of a small
retrieval-augmented generation (RAG) assistant. The endpoint answers questions
from text chunks of uploaded PDFs. It is a `POST` handler
(`rag-frontend/app/api/chat/route.ts`) that:

1. takes the last message of the conversation and extracts its query. With
   `parts`, the query is the texts of the `text` parts joined by `'\n'`.
   Without them, it is a string `content`. Otherwise it is `''`;
2. skips embedding and retrieval, leaving the context `''`, when the trimmed
   query is empty. Otherwise it embeds the untrimmed query with `text-embedding-3-small` and sends the vector
   to index `pdf-rag-project`, namespace `pdf-rag`, with `topK: 3` and
   `includeMetadata: true`;
3. joins the matches' `metadata.text` (or `''`), in the order returned, with
   `"\n\n---\n\n"` to form the context block;
4. fills a fixed system-instruction template with the context, converts the
   entire conversation, and starts `gpt-4-turbo` with both.

Modules, one file each:

- `Wrappers`: `Option` (absent fields) and `Result` (a call that returns or throws).
- `JsStrings`: the JavaScript built-ins the handler relies on. `Trim` follows
  ECMAScript's WhiteSpace and LineTerminator sets. `Join` is `Array.prototype.join`.
- `QueryExtraction`: messages, parts and the query extraction.
- `ContextAssembly`: index matches and the context block.
- `Prompt`: the system-instruction template, and reading the context back out of it.
- `ChatHandler`: the handler as imperative methods.
  - The embedder, the vector index and the message converter are function
    parameters. Each returns `Ok(value)` or `Err(fault)`.
  - Every method that calls a service returns the list of external calls it
    made, in order, with their arguments. Its contract states when each service is called, with
    what, and what the generator receives.

The handler has no error handling anywhere. A failing embedding, index query
or conversion escapes the handler as an error, and the model does the same.
A design that degraded retrieval failures to an empty context, or that joined
only non-empty texts, would behave differently. The model follows the code. Retrieval errors propagate. A match without text still
takes its position as an empty segment between two separators.

## Model

All sources are in `rag-frontend/app/api/chat/route.ts`.

| member | source | states |
|---|---|---|
| JsStrings.IsJsWhitespace | rag-frontend/app/api/chat/route.ts:24 | definition: the ECMAScript WhiteSpace and LineTerminator code points that `trim` strips; used by `TrimStart`, `TrimEnd` and `TrimEmptyIffBlank` |
| JsStrings.Trim | rag-frontend/app/api/chat/route.ts:24 | definition of `inputQuery.trim()`, both ends stripped; specified by `TrimStart`, `TrimEnd`, `TrimEmptyIffBlank` and `TrimProperties` |
| JsStrings.TrimStart | rag-frontend/app/api/chat/route.ts:24 | the result is a suffix of the input, does not start with whitespace, and everything removed is whitespace |
| JsStrings.TrimEnd | rag-frontend/app/api/chat/route.ts:24 | the result is a prefix of the input, does not end with whitespace, and everything removed is whitespace |
| JsStrings.TrimEmptyIffBlank | rag-frontend/app/api/chat/route.ts:24 | `query.trim().length > 0` holds exactly when the query has a non-whitespace character |
| JsStrings.TrimProperties | rag-frontend/app/api/chat/route.ts:24 | the trimmed query has no whitespace at either end, is no longer than the query, and is a contiguous slice of it |
| JsStrings.Join | rag-frontend/app/api/chat/route.ts:18 | definition of `Array.prototype.join` over strings, used at lines 18 and 41; specified by `JoinAppend`, `JoinLength` and `JoinPieceAt` |
| JsStrings.JoinAppend | rag-frontend/app/api/chat/route.ts:18 | joining two non-empty lists equals joining each, with one separator between them |
| JsStrings.JoinLength | rag-frontend/app/api/chat/route.ts:41 | `n >= 1` pieces join to their total length plus exactly `n - 1` separators |
| JsStrings.JoinPieceAt | rag-frontend/app/api/chat/route.ts:18 | piece `k` sits at its offset (earlier pieces plus `k` separators), followed by a separator unless it is the last |
| QueryExtraction.LastQuery | rag-frontend/app/api/chat/route.ts:10 | definition: the query of `messages[messages.length - 1]`; used by `Post` |
| QueryExtraction.ExtractQuery | rag-frontend/app/api/chat/route.ts:14-21 | definition: the parts when present, else a string `content`, else `''`; specified by `PartsTakePrecedence`, `ContentFallback`, `ShapesAgree` and `QueryFromPartsPieceAt` |
| QueryExtraction.QueryFromParts | rag-frontend/app/api/chat/route.ts:15-18 | definition of the `.filter(...).map(...).join('\n')` pipeline; specified by `QueryFromPartsPieceAt`, `NonTextPartIgnored` and `AppendTextPart` |
| QueryExtraction.TextParts | rag-frontend/app/api/chat/route.ts:16 | definition of `.filter(part => part.type === 'text')`; specified by `TextPartsAppend`, `TextPartsExactly` and `NoTextParts` |
| QueryExtraction.PartTexts | rag-frontend/app/api/chat/route.ts:17 | definition of `.map(part => part.text)`, with an undefined text joined as `''`; used by `QueryFromPartsPieceAt` |
| QueryExtraction.TextPartsAppend | rag-frontend/app/api/chat/route.ts:15-16 | the `type === 'text'` filter distributes over concatenation, so it keeps the original order |
| QueryExtraction.TextPartsExactly | rag-frontend/app/api/chat/route.ts:15-16 | the filter keeps each text part as often as it occurs and drops every other part |
| QueryExtraction.NoTextParts | rag-frontend/app/api/chat/route.ts:16 | parts without a single text part filter to nothing |
| QueryExtraction.QueryFromPartsPieceAt | rag-frontend/app/api/chat/route.ts:14-18 | the `k`-th text part's text appears at its offset in the query, followed by `'\n'` unless it is the last |
| QueryExtraction.NonTextPartIgnored | rag-frontend/app/api/chat/route.ts:15-18 | inserting a non-text part anywhere leaves the query unchanged |
| QueryExtraction.AppendTextPart | rag-frontend/app/api/chat/route.ts:15-18 | appending a text part with text `t` appends `'\n'` and `t` to the query when the parts already hold a text part, and makes the query exactly `t` otherwise |
| QueryExtraction.PartsTakePrecedence | rag-frontend/app/api/chat/route.ts:14-18 | when `parts` is present, `content` is ignored; empty parts, or parts with no text part, give `''` |
| QueryExtraction.ContentFallback | rag-frontend/app/api/chat/route.ts:19-21 | without `parts`, a string `content` is the query verbatim, and otherwise the query is `''` |
| QueryExtraction.ShapesAgree | rag-frontend/app/api/chat/route.ts:14-21 | one text part holding `t`, and a plain `content` of `t`, both yield the query `t` |
| ContextAssembly.MatchText | rag-frontend/app/api/chat/route.ts:40 | definition of `match.metadata?.text \|\| ''`; used by `AssembleSegmentAt` and `MissingTextKeepsPosition` |
| ContextAssembly.MatchTexts | rag-frontend/app/api/chat/route.ts:39-40 | definition of `.map(match => match.metadata?.text \|\| '')`: one text per match, same length and order; used by `AssembleLength`, `AssembleSegmentAt` and `AssembleAppend` |
| ContextAssembly.AssembleContext | rag-frontend/app/api/chat/route.ts:39-41 | definition: the texts of the matches joined by `"\n\n---\n\n"`; specified by `AssembleEmpty`, `AssembleSegmentAt`, `AssembleLength`, `AssembleAppend` and `NoDeduplication` |
| ContextAssembly.AssembleEmpty | rag-frontend/app/api/chat/route.ts:39-41 | zero matches give the empty context |
| ContextAssembly.AssembleLength | rag-frontend/app/api/chat/route.ts:39-41 | `n >= 1` matches give their texts plus exactly `n - 1` separators of length 7 |
| ContextAssembly.AssembleSegmentAt | rag-frontend/app/api/chat/route.ts:39-41 | match `k`'s text is the `k`-th segment, at its offset, followed by a separator unless it is the last |
| ContextAssembly.AssembleAppend | rag-frontend/app/api/chat/route.ts:39-41 | matches are assembled in the index's order: two runs join with one separator between, with no re-sorting |
| ContextAssembly.MissingTextKeepsPosition | rag-frontend/app/api/chat/route.ts:40 | an interior match whose text is `''` (no metadata, no `text`, or an empty one) keeps its position, showing as two adjacent separators |
| ContextAssembly.NoDeduplication | rag-frontend/app/api/chat/route.ts:39-41 | a repeated match contributes its text twice |
| ContextAssembly.TwoChunkScenario | rag-frontend/app/api/chat/route.ts:39-41 | two matches with known texts give exactly `"Refunds within 30 days.\n\n---\n\nContact support to start a refund."` |
| Prompt.SystemPrompt | rag-frontend/app/api/chat/route.ts:48-51 | definition: the fixed template `SystemPromptPrefix` followed by the context; specified by `SystemPromptEndsWithContext`, `ContextRoundTrip`, `ContextOfSound` and `SystemPromptInjective` |
| Prompt.SystemPromptEndsWithContext | rag-frontend/app/api/chat/route.ts:48-51 | the instruction is the template followed by the context: it ends with the exact context, right after `"Context:\n    "` |
| Prompt.ContextRoundTrip | rag-frontend/app/api/chat/route.ts:48-51 | the context is read back unchanged from the instruction built from it |
| Prompt.ContextOfSound | rag-frontend/app/api/chat/route.ts:48-51 | an instruction from which a context is read back is the template filled with that context |
| Prompt.SystemPromptInjective | rag-frontend/app/api/chat/route.ts:48-51 | different contexts give different instructions |
| ChatHandler.ReadQuery | rag-frontend/app/api/chat/route.ts:10-21 | the `let`-and-reassign extraction computes exactly the query `ExtractQuery` defines, and `''` when neither shape applies |
| ChatHandler.RetrieveContext | rag-frontend/app/api/chat/route.ts:23-42 | with an empty trimmed query: no calls and context `''`; otherwise embed the untrimmed query with `text-embedding-3-small` first, then query index `pdf-rag-project`, namespace `pdf-rag`, `topK = 3`, metadata included, with the returned vector, then assemble; a failing call ends the gate with its error |
| ChatHandler.Generate | rag-frontend/app/api/chat/route.ts:44-53 | the whole history is converted, then the generator receives the template filled with the context and the converted history; a failing conversion propagates (stated by the predicate `GeneratesWith`, which `Post` uses too) |
| ChatHandler.Post | rag-frontend/app/api/chat/route.ts:7-56 | embedding happens exactly when the trimmed query is non-empty, and first; errors propagate; the generator is called last, with the entire converted history and an instruction whose context part is `''` for a blank query and the assembled matches otherwise |

## Left out

- A non-empty `messages` list is a precondition of `Post`. With an empty list, `messages[messages.length - 1]` is undefined and the handler throws.
- Request parsing (`req.json()`), the `maxDuration = 30` timeout, streaming, cancellation and `toUIMessageStreamResponse` are runtime and transport concerns. `Post` returns the arguments the generator is started with, or the error that escapes.
- The internals of `embed`, the Pinecone client, `convertToModelMessages` and `streamText` belong to libraries. They are function parameters or fixed records here. Embedding vectors and scores are opaque reals that nothing inspects.
- Reading `PINECONE_API_KEY` from the environment is credential handling. A client that fails for lack of a key shows up as a failing index query.
- Match metadata keeps only its string-valued entries; other entries, such as page numbers, are dropped. The handler reads only `text`, which the ingestion side stores as a string. A number, boolean or list stored under `text` would be a truthy non-string that `join` converts with JavaScript's `ToString`. That conversion is not modelled.
- A `parts` field that is truthy but not an array, or a part `text` that is not a string or undefined, would make the handler throw or coerce. These malformed payloads are not modelled.
- Strings are sequences of Unicode scalar values, not UTF-16 code units, so lone surrogates cannot be represented. Every whitespace character `trim` strips is in the Basic Multilingual Plane, so trimming agrees otherwise.
- Messages keep only role, `parts` and a string `content`, and parts only their `type` and `text`. Message ids and the payloads of file and tool parts are dropped, so the converter sees this projection. The handler reads none of those fields.
- `rag-frontend/app/page.tsx` (user interface, upload) and `rag-backend/server.py` (PDF ingestion) are not part of this model.
