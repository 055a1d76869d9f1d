# Proposal processor — a Dafny model

This project models the core of the LangGraph proposal processor. It covers:

- the `ProposalProcessor` class, which validates the configured chat and embedding providers;
- the five retrieval stages, which fill the shared state dictionary with documents;
- `build_document`, which generates five proposal sections with the chat model and lays them out on a PDF canvas:
  - a title per section;
  - greedy word wrap under an 80-character budget;
  - fixed vertical gaps;
- `send_email`, which decides whether a message is sent and what it contains;
- `build_graph`, the linear stage chain;
- `upload_documents`, which validates the embedding provider and stores one record per regular file found below a directory.

Modules:

- `Text`: Python's `str.split()` (the exact set of whitespace characters), `str.join`, the ASCII part of `str.upper()`, and the "word plus space" line builder.
- `LineWrap`: the greedy line packing of `build_document`, as a specification (`Pack`, `Wrap`) with its properties.
- `Layout`: the canvas as a class with a list of draw calls; the imperative layout loops are proved against `BodyEvents`, `SectionEvents` and `DocumentEvents`.
- `Config`: provider validation in the processor constructor and in `upload_documents`.
- `Pipeline`: the state as a class holding a map; the stage methods, section generation, the email decision, the graph and one full run.
- `Upload`: the vector store as a class holding its records; the upload loop.

The chat model and the retriever are parameters of the processor. Both are uninterpreted functions from prompt or query text to a result.

## Model

| member | source | states |
|---|---|---|
| Text.Split | proposal_processor/processor.py:146 | `text.split()` yields only non-empty words with no whitespace character in them |
| Text.SplitKeepsNonSpaces | proposal_processor/processor.py:146 | the words, concatenated, are exactly the text's non-whitespace characters in order |
| Text.SplitEmpty | proposal_processor/processor.py:146 | the text splits into no words exactly when every character is whitespace |
| Text.SplitNoSpace | proposal_processor/processor.py:146 | a text without whitespace splits into itself alone, or into nothing if it is empty |
| Text.SplitAtSpace | proposal_processor/processor.py:146 | a whitespace character separates: the words are those before it followed by those after it. With `SplitNoSpace` this fixes the split of every text |
| Text.SplitSpaced | proposal_processor/processor.py:146-150 | splitting the text of a built line (each word followed by one space) gives back exactly its words |
| Text.SpacedIsJoinPlusSpace | proposal_processor/processor.py:150 | a line built by `line += word + " "` equals the words joined by single spaces plus one trailing space |
| Text.SpacedSnoc | proposal_processor/processor.py:150 | appending a word to a line extends its text by that word and one space |
| Text.SpacedEmpty | proposal_processor/processor.py:155 | a built line is the empty string exactly when it holds no words (the `if line:` test) |
| Text.ReplaceChar | proposal_processor/processor.py:142 | `replace` keeps the length, changes every occurrence of the old character and leaves every other character as it was |
| Text.UpperAscii | proposal_processor/processor.py:142 | `upper` keeps the length, maps each ASCII lower-case letter to its capital and leaves no lower-case ASCII letter |
| LineWrap.PackKeepsWords | proposal_processor/processor.py:146-156 | the wrapped lines hold all the words, in order, with none lost or duplicated |
| LineWrap.PackGreedy | proposal_processor/processor.py:149-154 | a line is flushed only when the next word does not fit: every line followed by another, plus that next line's first word, reaches 80 characters |
| LineWrap.WrapGreedy | proposal_processor/processor.py:149-154 | on the drawn text: each drawn line that has a successor, plus the first word of that successor, is at least 80 characters long, so the `len(line + word) < 80` test failed there |
| LineWrap.WrapPreservesWords | proposal_processor/processor.py:146-156 | splitting each drawn line again and concatenating the results gives back `text.split()` |
| LineWrap.PackWithinBudget | proposal_processor/processor.py:148-154 | every drawn line holding two or more words is at most 80 characters long, trailing space included |
| LineWrap.WrapLineLength | proposal_processor/processor.py:148-154 | a line with two or more words is at most 80 characters; a line is longer than 80 exactly when it is one word of 80 or more characters |
| LineWrap.WrapEmptyLine | proposal_processor/processor.py:148-154 | an empty line is drawn exactly when the first word of the section has 80 or more characters, and then only as the first line |
| LineWrap.WrapLineShape | proposal_processor/processor.py:150-154 | each non-empty drawn line is its words joined by spaces, followed by one space |
| LineWrap.WrapFinalFlush | proposal_processor/processor.py:155-156 | no line is drawn for a section with no words; otherwise the final flush draws a non-empty line ending with the last word |
| LineWrap.PackLongWords | proposal_processor/processor.py:148-154 | when no word fits the budget, whatever line is pending is flushed, even an empty one, and then each word gets a line of its own |
| LineWrap.WrapLongWords | proposal_processor/processor.py:148-156 | when every word has 80 or more characters, the drawn lines are "" followed by each word plus one space, in order |
| Layout.Canvas.constructor | proposal_processor/processor.py:138 | a new canvas for the given path has no draw calls |
| Layout.Canvas.DrawString | proposal_processor/processor.py:143 | `drawString` appends exactly one draw call at (x, y) with the text |
| Layout.Title | proposal_processor/processor.py:142 | a section title has the key's length. Each character is the key's character, with `_` turned into a space and ASCII lower-case letters into capitals; so no underscore and no lower-case ASCII letter remains |
| Layout.BodyEventsAt | proposal_processor/processor.py:146-156 | the i-th line of a section body is drawn at x = 50 and at 15·i below the body's first line |
| Layout.DrawWords | proposal_processor/processor.py:146-156 | the word loop draws exactly the wrapped lines, 15 apart, and lowers y once per in-loop flush |
| Layout.LayOutSection | proposal_processor/processor.py:141-157 | a section adds its title at y, then its body from y − 20, and moves y down by 20 + 15·(in-loop flushes) + 30 |
| Layout.LayOutDocument | proposal_processor/processor.py:139-157 | laying out the content from y = 800 draws exactly the sections' draw calls in order, and returns the final y |
| Layout.InLoopFlushesNat | proposal_processor/processor.py:152-153 | the in-loop flush count is never negative, because a section with words always draws at least one line |
| Layout.SectionDescends | proposal_processor/processor.py:141-157 | a section's draw calls run strictly downwards from its start y, and the next section starts below all of them |
| Layout.DocumentDescends | proposal_processor/processor.py:139-157 | every draw call of the document lies at or below y = 800, strictly below the one before it |
| Layout.NoPageBreak | proposal_processor/processor.py:139-157 | with 53 or more words of 80 or more characters, one section already draws below the page's bottom edge (y < 0), because there is no page break |
| Config.ValidateChat | proposal_processor/processor.py:29-59 | the constructor accepts "openai" with a key and "vertex" with project, location and credentials, and nothing else. It picks gpt-4-turbo-preview or gemini-1.5-flash with 2048 output tokens. Each rejection carries its exact `ValueError` message |
| Config.InitAsWritten | proposal_processor/processor.py:29-68 | as written, construction can only succeed for the "vertex" provider, whatever `OpenAIEmbeddings` does with a positional key. For every provider other than "openai" it behaves exactly as the corrected constructor: a credentialed "vertex" configuration gets text-embedding-004, and rejections raise `ValidateChat`'s `ValueError` |
| Config.OpenAiInitFails | proposal_processor/processor.py:29-68 | every "openai" configuration with a key passes validation and still fails to construct. The failure comes either from `OpenAIEmbeddings` rejecting the positional key (library behaviour, a parameter here) or, failing that, as UnboundLocalError on `embeddings` |
| Config.Init | proposal_processor/processor.py:29-68 | corrected construction succeeds exactly when validation does, with the same error message otherwise. OpenAI embeddings use the OpenAI key; Vertex embeddings use text-embedding-004 with the project and location |
| Config.ValidateEmbedder | proposal_processor/document_uploader.py:20-33 | `upload_documents` accepts "openai" with a key and "vertex" with project and location (textembedding-gecko), and nothing else. Each rejection carries its exact `ValueError` message |
| Pipeline.DocsAt | proposal_processor/processor.py:94 | reading `state[key]` as documents succeeds exactly when the key is present and holds a document list or the empty string, which reads as no documents. A missing key raises KeyError, a non-empty string AttributeError, and a boolean TypeError |
| Pipeline.RetrieveOpportunityDocs | proposal_processor/processor.py:72-77 | the stage stores the documents retrieved for the opportunity query under `opportunity_docs` and changes nothing else |
| Pipeline.RetrieveCorporateDocs | proposal_processor/processor.py:79-84 | the stage stores the documents retrieved for the company query under `corporate_docs` and changes nothing else |
| Pipeline.RetrieveStaffDocs | proposal_processor/processor.py:86-91 | the stage stores the documents retrieved for the staff query under `staff_docs` and changes nothing else |
| Pipeline.RetrieveCapabilitiesDocs | proposal_processor/processor.py:93-98 | the stage raises and changes nothing if `opportunity_docs` is missing or not iterable as documents. An empty string reads as no documents. Otherwise it stores the documents retrieved for the capabilities query built from the opportunity page texts |
| Pipeline.RetrieveExperienceDocs | proposal_processor/processor.py:100-105 | the stage raises and changes nothing if `opportunity_docs` is missing or not iterable as documents. An empty string reads as no documents. Otherwise it stores the documents retrieved for the experience query built from the opportunity page texts |
| Pipeline.GenerateSection | proposal_processor/processor.py:107-122 | generation succeeds exactly when the section has a template and its key holds a document list (or the empty string, which reads as no documents). An unknown section raises KeyError. The text is the model's completion of the template prefix plus the page texts joined by newlines. For a known section, any failure is exactly the error of reading its documents: the document key's KeyError, AttributeError or TypeError |
| Pipeline.GeneratedSpec | proposal_processor/processor.py:133-135 | the content succeeds exactly when every section's key holds something readable as documents, and then holds one generated text per section, in section order |
| Pipeline.BuildNeedsAllDocs | proposal_processor/processor.py:124-135 | `build_document` generates all five sections exactly when the five document keys hold something readable as documents. The content keys come in the dictionary's order |
| Pipeline.SectionTitles | proposal_processor/processor.py:125-142 | the drawn titles are CORPORATE OVERVIEW, STAFF PROFILE, CAPABILITIES, EXPERIENCE and RESPONSES |
| Pipeline.BuildDocument | proposal_processor/processor.py:124-161 | if a section cannot be generated, the stage raises and the state is unchanged. Otherwise the canvas holds exactly the layout of the generated content and `pdf_path` is set to proposal_response.pdf |
| Pipeline.SendEmail | proposal_processor/processor.py:163-182 | nothing is sent unless an email configuration is set and `send_email` is truthy. Otherwise the message carries the configured addresses, the subject, the PDF and the SMTP login. A missing key raises KeyError, and the first missing key in the order the code reads them (from, to, pdf_path, smtp_server, username, password) is the one named |
| Pipeline.BuildGraph | proposal_processor/processor.py:184-211 | the graph is a linear chain of seven distinct stages, in the order they are added, from "opportunity" to "email", then END |
| Pipeline.ChainSuccessor | proposal_processor/processor.py:203-209 | in a linear chain each stage has exactly one successor: the next stage, or END after the last |
| Pipeline.Run | proposal_processor/processor.py:195-209 | a run along the chain, entered at its first node, always builds the document. The new state is the old one with the five retrieved document lists and `pdf_path` set. The capabilities and experience queries come from the opportunity documents retrieved in the same run. Every other key is kept, the drawn events are the layout of the content generated from that state, and the email decision is taken on the final state |
| Upload.VectorStore.AddTexts | proposal_processor/document_uploader.py:50 | `add_texts` appends one record per text, paired with its metadata |
| Upload.FilesMembers | proposal_processor/document_uploader.py:42-43 | the walk keeps every regular file and skips every other path |
| Upload.FilesCount | proposal_processor/document_uploader.py:42-43 | the number of stored files equals the number of walk positions that hold a regular file |
| Upload.RecordNamesItsFile | proposal_processor/document_uploader.py:44-50 | a record's text is the whole file and its source is the full path. When no component contains "/", its filename is exactly the text after the source's last "/" (the whole source if there is none) |
| Upload.UploadDocuments | proposal_processor/document_uploader.py:8-50 | once the client exists, the provider is validated, and a rejected provider stores nothing. Otherwise exactly one record per regular file is added, in walk order |

## Left out

- The chat model and the retriever are uninterpreted functions (`Processor.complete`, `Processor.retrieve`). Network calls, retrieval ranking and the number of documents returned are not modelled. `Processor.complete` yields the section text. As written, `chain.invoke` with a chat model most likely returns a message object rather than a string; then `text.split()` at processor.py:146 would raise after the first title is drawn. Whether it does is decided by library code that is not part of this model, which takes the message's text.
- `Upload.UploadDocuments`: `create_client` runs before the provider check (document_uploader.py:17), so a bad URL or key raises before any `ValueError`; the model starts after the client exists.
- Supabase (`create_client`), the vector store's embedding of texts and the `documents` table are not modelled. The store is reduced to the list of records added to it. `UploadDocuments` takes that store as an argument instead of creating it.
- The PDF itself is reduced to the sequence of `drawString` calls. Fonts, the reportlab byte output and `c.save()` are not modelled.
- `SendEmail` describes the message that would be sent. Building the MIME message, reading the PDF from disk (and its failure if the file is missing), and the SMTP session with STARTTLS and login are not modelled.
- Reading files in `upload_documents` is an input: the recursive glob's listing, with each file's text, is passed in. The glob order, decoding errors and unreadable files are not modelled.
- The LangGraph runtime is not modelled. `build_graph` sets no entry point (no `set_entry_point` call and no edge from START). `Pipeline.Run` assumes a run enters at "opportunity", the first node added, and executes the stages in the order `BuildGraph` chains them. What LangGraph does with a graph that has no entry point is not modelled.
- The state schema's type annotations are not enforced. A value that is not a document list under a document key reads as in Python: an empty string as no documents, a non-empty string raises AttributeError, a boolean raises TypeError.
- `Pipeline.SendEmail`: any non-string value under `pdf_path` is modelled as raising TypeError. Python's `open` would take a boolean there as a file descriptor.
- The chat model's `temperature=0.2` (a float) and the `embeddings=` keyword passed to `ChatOpenAI` are not modelled.
- `Layout.Title`: upper-cases ASCII letters only. Python's `upper` also maps non-ASCII letters; the section keys are ASCII.
- proposal_processor/generate_proposal.py, upload.py and main.py (the command-line entry points) are not part of this model.
- The code has no page break, encoding fallback, null-byte stripping or per-page PDF text extraction, and the model follows the code. `Layout.NoPageBreak` shows the consequence of the missing page break.

## Findings

| source | as written | input that shows it | evidently intended | confidence | as-written member | corrected member |
|---|---|---|---|---|---|---|
| proposal_processor/processor.py:35 and :66 | the "openai" branch builds `OpenAIEmbeddings(openai_api_key)` with the key passed positionally, only as a keyword argument of `ChatOpenAI`, and never assigns the local `embeddings` that the vector store reads at :66 | `llm_provider="openai"`, `openai_api_key="sk-key"` raises: most likely a TypeError from the positional argument at :35, otherwise UnboundLocalError on `embeddings` at :66. The exact exception depends on library code outside these files | `embeddings = OpenAIEmbeddings(openai_api_key=openai_api_key)` bound in the "openai" branch, so an OpenAI processor can be constructed | high that construction fails; the exception kind is uncertain (not executed) | Config.InitAsWritten, Config.OpenAiInitFails | Config.Init |
