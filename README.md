# Pixtral node for ComfyUI: a Dafny model of its decision logic

`pixtral_node.py` defines three ComfyUI nodes. This project models the logic they run. It leaves out the libraries they call.

- `ComfyUIPixtral.process` (module `ImageShape` and module `Request`). It turns every input image into a PIL image, using only the image's shape:
  - a torch tensor is squeezed;
  - a 3-D shape whose first axis is 1, 3 or 4 is rotated from (C, H, W) to (H, W, C);
  - the shape then selects luminance, RGB, RGBA converted to RGB, or one of two `ValueError`s.
  
  Each image is then JPEG/base64-encoded into a `data:image/jpeg;base64,` URI. Next it checks that there are at most 30 URIs and builds one user message: the prompt followed by one `image_url` part per URI. It POSTs the request to the Mistral chat-completions endpoint and flattens whatever happens into one returned string:
  - the first choice's content on HTTP 200;
  - `API Error: <code>, <body>` for any other status;
  - `Error in process method: <message>` for any exception.
- `MultiImagesInput.combine` (module `MultiImages`). It collects the passed slots `image_1` .. `image_<inputcount>` in order and requires between 2 and 30 of them. It then batches every later non-`None` image onto the first, in order.
- `preview_text.run` (module `Preview`). It wraps a non-list input in a list and coerces every element to a string.

Shapes are `seq<nat>`. Pixels are an opaque type parameter. Python's `str()` of ints and tuples, which appears in the error messages, is written out in module `Text`.

Three pieces are foreign code, so they are parameters:
- the encoder (PIL plus `base64`);
- the HTTP round trip (`requests.post` plus reading the JSON reply);
- ComfyUI's `ImageBatch.batch`.

A parameter that stands for code that can raise returns `Failure(message)`, where the message is the exception's `str()`. `Process` also returns the POST it issued. This makes "no request is sent" something a contract can state.

## Model

| member | source | states |
|---|---|---|
| `ImageShape.Squeeze` | pixtral_node.py:118-119 | after `squeeze()` no axis of size 1 remains, and the shape never gets longer |
| `ImageShape.SqueezeMultiset` | pixtral_node.py:119 | squeezing removes exactly the size-1 axes; every other axis size stays as often as it occurred |
| `ImageShape.SqueezeAppend` | pixtral_node.py:119 | squeezing a concatenation squeezes each part, so the surviving axes keep their order |
| `ImageShape.SqueezeKeepsNonUnit` | pixtral_node.py:119 | a shape without size-1 axes is left unchanged |
| `ImageShape.SqueezeIdempotent` | pixtral_node.py:119 | squeezing twice is squeezing once |
| `ImageShape.SqueezeKeepsProduct` | pixtral_node.py:119 | squeezing never changes the number of array elements |
| `ImageShape.Prepared` | pixtral_node.py:118-119 | an array keeps its shape; a tensor's shape is squeezed, so no size-1 axis remains and it never gets longer |
| `ImageShape.ToChannelLast` | pixtral_node.py:121-122 | the transpose keeps the rank and the axis sizes; a channel-first shape moves its first axis to the end and keeps the other two in order |
| `ImageShape.LayoutHeuristic` | pixtral_node.py:118-122 | the squeeze applies only to tensors; then a 3-D shape with first axis in {1,3,4} becomes (s1, s2, s0), and every other shape passes through unchanged |
| `ImageShape.ClassifyLayout` | pixtral_node.py:124-136 | only 2-D and 3-D shapes are accepted (with `ModeDispatch` and `ShapeErrors`: which layout each accepted shape gets, and which error each rejected one gets) |
| `ImageShape.Normalize` | pixtral_node.py:118-136 | a converted image keeps the input's pixels, and its height and width are the first two axes after squeeze and rotation |
| `ImageShape.ModeDispatch` | pixtral_node.py:124-132 | after rotation: 2-D or last axis 1 gives luminance, last axis 3 or 4 gives RGB (never RGBA), and height x width are the first two axes |
| `ImageShape.ShapeErrors` | pixtral_node.py:133-136 | 3-D with last axis outside {1,3,4} fails naming that axis; any rank other than 2 or 3 fails naming the shape; no other shape fails |
| `ImageShape.FailsExactly` | pixtral_node.py:118-136 | these are in terms of the shape before rotation: 2-D never fails; 3-D fails exactly when neither the first nor the last axis is 1, 3 or 4, and then it reports the last axis |
| `ImageShape.ShapeErrorMessage` | pixtral_node.py:133-136 | the channel error starts with `Unexpected number of channels: ` and the shape error with `Unexpected image shape: `, each followed by more text |
| `ImageShape.ShapeErrorReadBack` | pixtral_node.py:133-136 | after its fixed prefix, the channel error reads back as the channel count, and the shape error parses back as every axis of the shape, in order |
| `ImageShape.NormalizeOriented` | pixtral_node.py:124-132 | a channel-last shape (h, w) or (h, w, c) with c in {1,3,4} becomes an h x w image whose mode follows c |
| `ImageShape.OrientedPlain` | pixtral_node.py:118-122 | an (H, W) image reaches the dispatch as (H, W) when a tensor has no size-1 axis |
| `ImageShape.OrientedChannelsLast` | pixtral_node.py:118-122 | an (H, W, C) image with H not in {1,3,4} reaches the dispatch unrotated; a tensor loses only a size-1 C |
| `ImageShape.OrientedChannelsFirst` | pixtral_node.py:118-122 | a (C, H, W) image with C in {1,3,4} reaches the dispatch as (H, W, C), or as (H, W) for a tensor with C = 1 |
| `ImageShape.SqueezeChannelsFirst` | pixtral_node.py:119 | a (C, H, W) tensor with H, W other than 1 squeezes to (H, W) when C = 1 and is unchanged otherwise |
| `ImageShape.SqueezeSingle` | pixtral_node.py:119 | a single axis survives the squeeze exactly when its size is not 1 |
| `ImageShape.NormalizeRecovers` | pixtral_node.py:118-132 | against an independent description of layouts: every (H, W) image, every (C, H, W) image and every (H, W, C) image with H not in {1,3,4} (for tensors, H and W not 1) becomes the H x W image of the intended mode |
| `ImageShape.ChannelLastMisread` | pixtral_node.py:121-132 | the known ambiguity: an (H, W, C) array with H in {1,3,4} is rotated and read as a W x C image whose mode follows H |
| `ImageShape.HeightThreeRgbTransposed` | pixtral_node.py:121-132 | a (3, 5, 3) RGB array comes out 5 x 3 RGB, and not as the 3 x 5 image it is |
| `ImageShape.OneRowTensorMisread` | pixtral_node.py:118-125 | a (1, W, C) tensor loses its height to the squeeze and is read as a W x C luminance image |
| `MultiImages.PresentSlots` | pixtral_node.py:78 | the collected slot numbers are strictly ascending, and they are exactly the passed i with 1 <= i <= inputcount |
| `MultiImages.Collect` | pixtral_node.py:78 | at most inputcount images are collected, and none for inputcount below 1 (with `CollectIsPresentSlots`: exactly the present slots' values, in slot order) |
| `MultiImages.CollectIsPresentSlots` | pixtral_node.py:78 | the collected list holds, position by position, the value of each present slot (a slot passed as `None` included) and nothing else |
| `MultiImages.HigherSlotIgnored` | pixtral_node.py:78 | a slot above inputcount does not change what is collected |
| `MultiImages.AllSlotsCollected` | pixtral_node.py:78 | with every slot 1..n passed, exactly n images are collected |
| `MultiImages.SlotsOneAndThree` | pixtral_node.py:78 | slots 1 and 3 passed with inputcount 3 collect [slot 1, slot 3] |
| `MultiImages.FoldBatch` | pixtral_node.py:86-89 | a failure is always an exception from batching; on success the result is `None` exactly when the first value and every later value are `None` |
| `MultiImages.FoldBatchFailurePersists` | pixtral_node.py:86-89 | an exception from batching at some image ends the loop with that exception, whatever follows |
| `MultiImages.Combine` | pixtral_node.py:74-91 | fewer than 2 collected fails with that count and more than 30 fails with that count. Otherwise the result is the first collected value folded with every later non-`None` image in order, or the first exception that batching raises |
| `MultiImages.FoldIsConcatenation` | pixtral_node.py:86-89 | when batching is concatenation, the result is the first image followed by all later present images in slot order |
| `MultiImages.CombineErrorMessage` | pixtral_node.py:80-84 | an exception from batching passes through with its own text, and the 30-image text is the one `process` also raises |
| `MultiImages.CombineErrorNamesCount` | pixtral_node.py:80-84 | both error messages contain the decimal count |
| `Request.DataUri` | pixtral_node.py:143 | a URI is the fixed prefix `data:image/jpeg;base64,` followed by the encoded text, and nothing else |
| `Request.DataUriRoundTrip` | pixtral_node.py:143 | the encoded text can be read back from its URI |
| `Request.ImageUrl` | pixtral_node.py:118-143 | a shape error is reported before any encoding; otherwise the URI exists exactly when encoding succeeds, and it carries the encoded text, or the encoder's error is reported |
| `Request.EncodeAll` | pixtral_node.py:114-143 | on success there is one URI per image, in input order, each the URI of that image |
| `Request.EncodeAllOutcome` | pixtral_node.py:114-143 | the image loop succeeds exactly when every image converts; otherwise it reports the error of the first image that fails |
| `Request.EncodeAllFailurePersists` | pixtral_node.py:113-143 | an exception raised at some image ends the loop with that exception, whatever follows |
| `Request.EncodeImages` | pixtral_node.py:114-143 | the imperative loop computes exactly the outcome above |
| `Request.BuildContent` | pixtral_node.py:153-155 | the content list has 1 + n parts: the prompt as part 0, then URI k as part k + 1 |
| `Request.Headers` | pixtral_node.py:148-151 | the request carries `Authorization: Bearer <api key>` and `Content-Type: application/json`, and no other Authorization value |
| `Request.Process` | pixtral_node.py:112-187 | a failing image gives `Error in process method: <its message>` and no POST. More than 30 images gives the 30-image message and no POST. Otherwise exactly one POST goes to the endpoint with the bearer header, the model, one user message with the content list, and the temperature, max_tokens and top_p unchanged; its reply is turned into the returned string |
| `Request.Reply` | pixtral_node.py:175-187 | the reply is completed exactly for status 200 with readable content, and carries that content. It is an API error exactly for any other status, and carries that status and body. Everything else is a raised transport or reading error |
| `Request.Render` | pixtral_node.py:175-187 | a completed reply is returned unchanged; an API error starts with `API Error: `; an exception starts with `Error in process method: ` followed by its text |
| `Request.ErrorText` | pixtral_node.py:133-146 | foreign exceptions keep their own text, shape errors use the shape message, and the 30-image text is the one `combine` uses |
| `Request.ResultPolicy` | pixtral_node.py:175-187 | status 200 returns the first choice's content exactly, any other status returns `API Error: <code>, <body>`, and a failed round trip or unreadable reply returns `Error in process method: <message>` |
| `Request.TooManyMentionsLimit` | pixtral_node.py:145-146 | the too-many-images string mentions 30 and the count |
| `Text.LeadingDigitsAreDigits` | pixtral_node.py:180 | the digit run that a string starts with is all decimal digits |
| `Text.LeadingDigitsOf` | pixtral_node.py:180 | the status code's digits followed by `,` form a digit run of exactly their length |
| `Request.ApiErrorRoundTrip` | pixtral_node.py:180 | the status code and body can be read back from an API error string, so none of them is lost |
| `Text.NatToString` | pixtral_node.py:180 | `str()` of an int gives one or more decimal digits, with a leading zero only for 0 |
| `Text.DigitsValueOfNatToString` | pixtral_node.py:180 | reading the decimal rendering back gives the number |
| `Text.NatToStringInjective` | pixtral_node.py:180 | different counts and status codes render differently |
| `Text.TupleToString` | pixtral_node.py:136 | a shape renders in parentheses, as Python prints a tuple |
| `Text.TupleRoundTrip` | pixtral_node.py:136 | reading the rendering back gives exactly the shape, for every rank (the empty tuple and the one-element tuple with its trailing comma included) |
| `Text.LeadingDigits` | pixtral_node.py:136 | the digit run that a string starts with is no longer than the string |
| `Preview.Run` | pixtral_node.py:37-48 | a non-list input becomes a one-element list; the output keeps the input's length and order; strings are unchanged and other values go through `str()`; the `ui.text` and `text` lists are the same list |

## Left out

- Pixel values: `(image * 255).astype('uint8')` truncates floats, and neither this nor the data movement of `transpose`, `cpu()` and `numpy()` is modelled. Only shapes are.
- PIL `Image.fromarray`, `.convert('RGB')`, JPEG encoding at quality 95 and base64 are foreign code. They form the encoder parameter, which may fail with a message.
- `requests.post`, JSON serialisation of the body and JSON parsing of the reply are network I/O. They form the `send` parameter. A reply whose content is not a string (JSON `null`) is not modelled: the content read from a 200 reply is a string or a raised error.
- ComfyUI's `ImageBatch.batch` is not shown in the repository. It is the `batch` parameter of `Combine`. It is called with the running result as Python does, including `None`, and it may fail with a message, e.g. when batching onto `None` raises.
- The `from nodes import ImageBatch` import inside `combine` is host plumbing; an import failure is not modelled.
- Keyword arguments other than `image_<i>` are ignored by `combine` and are not modelled. A slot key is modelled by its number i.
- An input without a `.shape` attribute, which would raise `AttributeError`, is not modelled: every image has a shape.
- The temperature and top_p floats are modelled as reals that are copied through. `process` does not range-check them or max_tokens, and only the host's input schema bounds them.
- Logging, `get_unique_hash`, `folder_paths`, the `INPUT_TYPES` schemas and the node registration tables (here and in `__init__.py`) are host plumbing with no logic.
- Three behaviours of the code are worth a note, and the model follows each:
  - the 30-image check at lines 145-146 runs only after every image has been converted and encoded, so a shape or encoding error is reported even when there are more than 30 images;
  - `combine` does not bound inputcount itself; only the input schema at line 55 does, and any inputcount is accepted here;
  - `astype('uint8')` truncates the scaled pixel values toward zero instead of rounding them (pixel values are not modelled, see above).
