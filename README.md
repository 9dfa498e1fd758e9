# heart_detect, modelled in Dafny

heart_detect is a heart-disease screening system in two parts. There is
an Express/MongoDB backend (`heart-backend`) and a React Native app
(`heart-app`). This project models, as Dafny datatypes, functions,
classes and lemmas:

- **The backend's prediction pipeline.**
  - The `/api/predict` route normalises form fields into numeric
    features, calls the external predictor, reduces its answer to one
    clamped probability and one risk label, and stores a Prediction.
  - `normalizeResult` rewrites the predictor's JSON before the route
    sees it.
  - `predict.py` makes the final decision from the image risk codes and
    the text label.
- **The backend's stores.** Each collection is a class with a `records`
  sequence and a `nextId` counter:
  - reports: the unified route, the file route, the image-report route,
    and the result controller's save and upload;
  - user reports;
  - vitals;
  - predictions;
  - users: signup, login, and both password-reset schemes.
- **The app's screens.** This covers the input checks and request bodies
  of the camera, vitals, report-name, result, login, signup,
  forgot-password and new-password screens.

Underneath all of these is a small model of the JavaScript semantics the
code relies on. It is in modules `Js`, `Text` and `Json`: dynamic values
and truthiness, `a || b`, `Number(v)`, `toFixed(2)`, `Math.round`, `trim`,
`toLowerCase`, `includes`, `split(sep)[0]`, a string's `length` in UTF-16
code units, and the `JSON.stringify`/`JSON.parse` trip of a request body.

Properties that span modules:

- The Python script never prints a probability or a top-level `risk`.
  After `normalizeResult`, the prediction route therefore stores label
  "Low" with probability 0 for every answer of the script
  (`PredictCombined.PipelineStoresLow`). This assumes a script that
  received its two arguments. As wired, `predict_combined.js` spawns
  `python predict.py` with no arguments and writes the input to its
  standard input, while `predict.py` reads `sys.argv[1]` and `sys.argv[2]`.
  So the script fails, its empty output does not parse, and the route
  answers 500.
- The script puts "Moderate" only in `final_decision.risk_level`, which the
  route never reads. A predictor whose top-level `risk` is "Moderate", or
  any other non-empty label outside the Prediction schema's enum, has that
  label passed through, so the prediction cannot be saved
  (`PredictRoute.ForeignLabelIsNotSaved`).
- The new-password screen posts to `/api/auth/reset-password/<token>`.
  The auth router mounted at `/api/auth` serves only `/signup`, `/login`
  and `/forgot-password`. The router that consumes stored reset tokens
  is mounted at `/api/reset-password`. So no mounted handler serves the
  request (`AuthScreens.NewPasswordPathUnrouted`).
- The app lower-cases the email at login, but signup keeps its case.
  The app trims the password at login, but signup sends it untrimmed.
  So an account registered with an upper-case email, or with a padded
  password, can never log in (`AuthScreens.UppercaseEmailNeverLogsIn`,
  `AuthScreens.PaddedPasswordNeverMatches`).
- The camera screen moves on only when the reply's `status` is
  `"success"`, and the prediction route's reply has no `status` field
  (`CameraScreen.PredictReplyNeverShowsResult`). This applies only if the
  screen's request reaches that route. The screen posts to
  `<BASE_URL>/predict`, where BASE_URL is a tunnel host, while app.js
  mounts the route at `/api/predict`. The lemma therefore holds only for
  a tunnel that forwards `/predict` to `/api/predict`. The result screen
  also reads `final_decision` and `fusion_model`, which the route never
  sends, so the screen may be written against another backend.
- The vitals screen accepts an age typed as "0", and the server's
  presence check rejects the number 0
  (`AddUserDataScreen.ZeroAgePassesClientNotServer`).
- The result screen passes `recommendations` and drops `result`. The
  report-name screen reads `recommendation` and `result`, so both are
  sent undefined (`AddReportNameScreen.ResultScreenLosesRecommendation`).

Each of these is a property of the code as written. The code itself is
modelled unchanged.

## Model

| member | source | states |
|---|---|---|
| Risk.Classify | heart-backend/routes/predict.js:107-108 | the label is High exactly when p >= 0.7 and Medium exactly when 0.4 <= p < 0.7; everything else, NaN included, is Low; the label is always one of the schema's three |
| Risk.ClassifyMonotone | heart-backend/routes/predict.js:107-108 | a larger probability never gets a lower label |
| Risk.Boundaries | heart-backend/routes/predict.js:107-108 | 0.4 is Medium, 0.7 is High, NaN is Low |
| PredictRoute.YesNoFlag | heart-backend/routes/predict.js:26-30 | the flag is 0 or 1; null and undefined give 0; for a string the flag is 1 exactly when its trimmed lower-cased text is yes, y, true or 1 |
| PredictRoute.GenderFlag | heart-backend/routes/predict.js:31-37 | the flag is 0 or 1; a falsy value gives 0; for a string the flag is 1 exactly when its trimmed lower-cased text is male or m |
| PredictRoute.ToNumberOr | heart-backend/routes/predict.js:38-41 | the result is Number(v) when that is finite, else the default |
| PredictRoute.NonNumericIsZero | heart-backend/routes/predict.js:38-41 | text with no decimal digit converts to the default 0 |
| PredictRoute.SystolicOfReading | heart-backend/routes/predict.js:66-72 | a reading "a/any" has systolic pressure a |
| PredictRoute.NonNumericPressureIsZero | heart-backend/routes/predict.js:66-72 | a reading without digits gives pressure 0, with or without a slash |
| PredictRoute.SystolicPressure | heart-backend/routes/predict.js:66-72 | for a string the pressure is the number of its text before the first "/", which is all of it when there is no "/"; for any other value it is the value's number; 0 when that number is not finite |
| PredictRoute.ReadSystolic | heart-backend/routes/predict.js:66-72 | the pressure is the number before the first "/" of a string holding one, else the number of the whole value |
| PredictRoute.BuildTextPayload | heart-backend/routes/predict.js:75-86 | every flag feature is 0 or 1; bp is the systolic pressure and age the numeric age, defaulting to 0 |
| PredictRoute.ReadTextPayload | heart-backend/routes/predict.js:66-86 | the method builds exactly the payload BuildTextPayload specifies |
| PredictRoute.ChosenProbability | heart-backend/routes/predict.js:100-104 | a numeric final_prob wins; else the mean of text and image probabilities when there is an image probability; else the text probability |
| PredictRoute.FinalProbability | heart-backend/routes/predict.js:106 | the probability is never infinite, is in [0, 1] when finite, and is NaN exactly when the chosen one is; a chosen value in [0, 1] is kept, one above 1 or +Infinity becomes 1, and one below 0 or -Infinity becomes 0 |
| PredictRoute.ReadProbabilities | heart-backend/routes/predict.js:100-106 | the method's three values are the text probability, the image probability and the clamped final probability, the last in [0, 1] unless NaN |
| PredictRoute.RiskLabel | heart-backend/routes/predict.js:107-108 | a truthy `risk` wins, then a truthy `final_risk`, then the threshold label; the label is always truthy |
| PredictRoute.Recommendation | heart-backend/routes/predict.js:110-112 | each advice text is produced exactly for its label (High, Medium, anything else) |
| PredictRoute.Advise | heart-backend/routes/predict.js:110-112 | the method yields the same advice as Recommendation |
| PredictRoute.StoredReportName | heart-backend/routes/predict.js:117 | a falsy name becomes "Untitled Report"; a non-empty string is trimmed; a truthy non-string throws; a stored name is always trimmed |
| PredictRoute.ReadReportName | heart-backend/routes/predict.js:117 | the method computes StoredReportName |
| PredictRoute.BlankNameBecomesEmpty | heart-backend/routes/predict.js:117 | a name made only of white space is stored as "" |
| PredictRoute.SavedImagePaths | heart-backend/routes/predict.js:123 | one path per uploaded file, in order, under /uploads/predict/ |
| PredictRoute.ReplyJson | heart-backend/routes/predict.js:128-138 | the reply's JSON has no keys besides its nine fields |
| PredictRoute.Respond | heart-backend/routes/predict.js:63-141 | no caller gives 401 and a failed predictor gives 500; a record is saved exactly when the reply is a prediction; the record has the caller, the next id, the clock, a schema label, a non-empty trimmed name and the saved image paths; "Heart Disease" is the verdict exactly for High; the reply repeats the record; once the predictor answers, the reply is a prediction exactly when the stored name exists and the schema accepts the label and the three rounded probabilities; the saved risk, rounded probabilities, recommendation and name are those the helpers compute from the answer |
| PredictRoute.PredictionStore.Post | heart-backend/routes/predict.js:61-142 | the reply is Respond's, and the store gains exactly the record Respond saves, and the id counter advances by one exactly when a record is saved |
| PredictRoute.PredictionStore.Append | heart-backend/routes/predict.js:115-125 | the record is appended with the next id, which then advances |
| PredictRoute.PredictionStore.History | heart-backend/routes/predict.js:148-158 | every listed prediction is a stored one of the caller and every one of the caller's is listed, each as often as it is stored, newest first |
| PredictRoute.PredictionStore.constructor | heart-backend/models/Prediction.js:3-13 | the collection starts empty |
| PredictRoute.SavedHighHasGrounds | heart-backend/routes/predict.js:107-108 | a prediction is stored as High only when the predictor's `risk` is High, or it has no `risk` and its `final_risk` is High, or it has neither and the clamped probability is at least 0.7 |
| PredictRoute.ForeignLabelIsNotSaved | heart-backend/models/Prediction.js:6 | any non-empty top-level predictor `risk` outside Low/Medium/High (such as "Moderate") is passed through unchanged as the label and fails the schema, so it is never saved |
| PredictRoute.OppositeInfinitiesAreNotSaved | heart-backend/routes/predict.js:102-125 | text +Infinity and image -Infinity with no final probability average to NaN, which the clamp keeps and the schema's Number cast refuses, so nothing is saved |
| PredictRoute.MeanOfTextAndImage | heart-backend/routes/predict.js:100-108 | text 0.5 and image 0.7 with no label give probability 0.6 and label Medium |
| PredictRoute.EmptyAnswerIsLow | heart-backend/routes/predict.js:100-108 | an empty answer gives probability 0 and label Low |
| PythonPredict.Extract | heart-backend/ml/predict.py:28 | a vector is produced exactly when every key is present, with the values in key order; otherwise the error names the first missing key |
| PythonPredict.PredictText | heart-backend/ml/predict.py:26-32 | with every feature present and a model that answers, the text is the model's label |
| PythonPredict.FeaturesInTrainingOrder | heart-backend/ml/predict.py:24-28 | the model receives age, cholesterol, bp and sugar in that order |
| PythonPredict.MissingAgeIsReported | heart-backend/ml/predict.py:26-32 | without an age the text is the KeyError message for 'age' |
| PythonPredict.RiskCodes | heart-backend/ml/predict.py:60 | the codes are exactly the risk codes of the dict entries; error entries give none |
| PythonPredict.RiskLevel | heart-backend/ml/predict.py:61-66 | the level is High exactly when some code is 2 or the text is High; it is Moderate exactly when it is not High and some code is 1 or the text is Moderate; otherwise it is Low |
| PythonPredict.ErrorsAreIgnored | heart-backend/ml/predict.py:60 | an added error entry leaves the level unchanged |
| PythonPredict.MorePredictionsNeverLower | heart-backend/ml/predict.py:60-66 | more image predictions never lower the level |
| PythonPredict.MainOutput | heart-backend/ml/predict.py:69-73 | the printed object has exactly the keys text_prediction, image_predictions and final_decision; the decision holds risk_level |
| PredictCombined.RawResult.constructor | heart-backend/ml/predict_combined.js:5 | the object holds the parsed fields |
| PredictCombined.NormalizeResult | heart-backend/ml/predict_combined.js:5-28 | a missing object gives a fresh empty one; otherwise the same object is returned, updated in place to Normalized of its old fields |
| PredictCombined.RoundProbabilities | heart-backend/ml/predict_combined.js:24-26 | the loop applies the rounding step to final_prob, text_prob and image_prob in order |
| PredictCombined.RoundKeysKeepsOthers | heart-backend/ml/predict_combined.js:24-26 | rounding touches no property other than the three keys |
| PredictCombined.Normalized | heart-backend/ml/predict_combined.js:5-28 | no property other than risk, final_prob, text_prob and image_prob changes |
| PredictCombined.FinalProbIsNumber | heart-backend/ml/predict_combined.js:10-18 | after normalisation final_prob is always a number |
| PredictCombined.RiskAfterNormalization | heart-backend/ml/predict_combined.js:8-22 | a truthy risk is kept; else a truthy final_risk is copied; else the label is taken from the unrounded probability |
| PredictCombined.ChosenProbability | heart-backend/ml/predict_combined.js:10-18 | the four cases of choosing final_prob |
| PredictCombined.NoClamping | heart-backend/ml/predict_combined.js:10-26 | final_prob 1.5 stays 1.5 and is labelled High |
| PredictCombined.NoProbabilityIsLow | heart-backend/ml/predict_combined.js:10-26 | an answer with no probability and no risk keys normalises to 0 and Low |
| PredictCombined.PythonAnswerIsAlwaysLow | heart-backend/ml/predict.py:69-73 | every object the Python script prints normalises to probability 0 and label Low, whatever its risk_level |
| PredictCombined.PipelineStoresLow | heart-backend/routes/predict.js:100-108 | through normalisation and the route, every Python answer is stored as Low with probability 0 |
| Reports.CheckName | heart-backend/routes/reports.js:22-24 | a name is accepted exactly when it is a string that is not all white space; a truthy non-string is the throwing case |
| Reports.CheckNameIsTrimTest | heart-backend/routes/reports.js:22 | a name is accepted exactly when its trim is non-empty |
| Reports.AllTruthy | heart-backend/controllers/resultController.js:13 | the check passes exactly when every listed field is truthy, whatever the order of the tests |
| Reports.TextFields | heart-backend/controllers/resultController.js:19-25 | the stored map has exactly the nine fields, copied from the body |
| Reports.ImagesOf | heart-backend/routes/report.js:23-27 | one image entry per file, in order, with its bytes and content type |
| Reports.WordRun | heart-backend/routes/reportImage.js:44 | the length of the longest leading run of `\w` characters |
| Reports.WordRunOf | heart-backend/routes/reportImage.js:44 | the run of `\w` characters stops at the first other character |
| Reports.StripDataUrl | heart-backend/routes/reportImage.js:44 | the result is a suffix of the text, and text without the data-URL prefix is unchanged |
| Reports.StripAnyDataUrl | heart-backend/routes/reportImage.js:44 | "data:image/" + a non-empty run of `\w` characters + ";base64," + payload strips to payload |
| Reports.StripPngDataUrl | heart-backend/routes/reportImage.js:44 | "data:image/png;base64," + payload strips to payload |
| Reports.ChooseImage | heart-backend/routes/reportImage.js:26-64 | a missing name or type gives 400; a type off the ECG/ETT/Echo list gives 400; with a name and a listed type, a file or a non-empty base64 string is always chosen; an uploaded file wins; otherwise the base64 text is written under `<now>_<random>.png` with its prefix stripped, and is kept inline exactly when its length is at most 500000 UTF-16 code units; a truthy non-string `imageBase64` without a file makes `replace` throw and gives 500; with neither file nor text the answer is 400 |
| Reports.FreshIdIsFound | heart-backend/routes/reports.js:70-73 | a record appended under an id above every earlier one is the one the lookup finds for its owner, and the lookup finds nothing for anyone else |
| Reports.AnalysisReport | heart-backend/routes/reports.js:26-36 | the record carries the caller, the name and the clock, and the body's risk, recommendation, finalProbability, userData and rawResult; the type is the body's when truthy and General otherwise; the images are the body's when truthy and [] otherwise |
| Reports.FilesReport | heart-backend/routes/report.js:23-38 | the record carries the caller, the name, the clock, and the body's risk, recommendation, finalProbability and userData; the type is the body's when truthy and General otherwise; one image entry per uploaded file, or none without uploads |
| Reports.IndexOf | heart-backend/routes/reports.js:70-73 | finds a record with this id owned by the caller, or reports that none exists |
| Reports.ImageFields | heart-backend/controllers/resultController.js:69-71 | one file part per upload, named image1, image2, ... in order |
| Reports.ImageFieldNamesDistinct | heart-backend/controllers/resultController.js:69-71 | the image field names are pairwise distinct |
| Reports.ColabForm | heart-backend/controllers/resultController.js:68-77 | the form is the image fields followed by age, weight, bp, sugar and cholesterol, each with its body value |
| Reports.AppendImageParts | heart-backend/controllers/resultController.js:69-71 | the parts are exactly ImageFields: `image<i+1>` with the i-th upload, in upload order |
| Reports.BuildColabForm | heart-backend/controllers/resultController.js:68-77 | the appending stops, as form-data's `append` throws, exactly when one of the five text fields is undefined or null; otherwise it builds exactly ColabForm |
| Reports.RemoveAtKeepsOthers | heart-backend/routes/reports.js:89-93 | removing the matching record removes the only record with its id, keeps every other record and keeps ids increasing |
| Reports.ReportStore.constructor | heart-backend/models/Report.js:3-16 | the collection starts empty |
| Reports.ReportStore.Append | heart-backend/routes/reports.js:38 | the record is appended with the next id |
| Reports.ReportStore.ListNewest | heart-backend/routes/reports.js:55-57 | the list holds exactly the caller's reports, as a permutation of them, newest first |
| Reports.ReportStore.HistoryByDate | heart-backend/routes/reportImage.js:69-77 | the list is a permutation of the caller's reports, sorted by date with the latest first |
| Reports.ReportStore.Find | heart-backend/routes/reports.js:70-73 | finds a stored record with this id owned by the caller, or reports that the caller owns none |
| Reports.ReportStore.Lookup | heart-backend/routes/reports.js:68-82 | 404 when Find finds nothing, else the report found |
| Reports.ReportStore.Save | heart-backend/routes/reports.js:9-48 | a blank name gives 400 and a throwing name 500, both with no change; otherwise exactly the AnalysisReport record is appended under the next id, the counter advances by one, and looking up its id finds it for the caller and for nobody else |
| Reports.ReportStore.Delete | heart-backend/routes/reports.js:87-103 | 404 with no change when Find finds nothing; otherwise that record is removed and every other record kept; afterwards Find finds nothing; the id counter never moves |
| Reports.ReportStore.SaveWithFiles | heart-backend/routes/report.js:14-47 | the name checks of Save; otherwise exactly the FilesReport record is appended |
| Reports.ReportStore.SaveImageReport | heart-backend/routes/reportImage.js:24-66 | ChooseImage's rejection with no change, or a dated image record with the chosen path and the file to write |
| Reports.ReportStore.SaveResult | heart-backend/controllers/resultController.js:8-38 | 400 with no change unless all nine fields are truthy; otherwise a text-result record with no images |
| Reports.ReportStore.UploadResult | heart-backend/controllers/resultController.js:57-120 | no file gives 400; an undefined or null text field (form-data throws before the call) and a failed service call each give 500; all three leave the store unchanged; otherwise a record with the service's answer, the summary and the files |
| UserReports.UploadMessage | heart-backend/routes/uploadReport.js:39 | the message is the report type followed by " uploaded successfully" |
| UserReports.DiskName | heart-backend/routes/uploadReport.js:17 | the stored name is the timestamp's digits, "_" and the original name |
| UserReports.DiskNameSplits | heart-backend/routes/uploadReport.js:17 | the text before the first "_" is the timestamp, and it converts back to it |
| UserReports.StoredNames | heart-backend/routes/uploadReport.js:28 | one stored file name per file, in order; none (the throw) when `req.files` is undefined |
| UserReports.UserReportStore.constructor | heart-backend/models/UserReport.js:3-11 | the collection starts empty |
| UserReports.UserReportStore.Upload | heart-backend/routes/uploadReport.js:23-45 | a missing vitalsId or reportType gives 400 and missing files 500, both with no change; otherwise a record with the stored names is appended |
| Vitals.VitalsOf | heart-backend/routes/vitals.js:31-43 | the record holds exactly the ten fields, as sent |
| Vitals.Complete | heart-backend/routes/vitals.js:23-29 | the presence check over the ten field names agrees with the handler's chain of ten truthiness tests |
| Vitals.ZeroCountsAsMissing | heart-backend/routes/vitals.js:23-29 | a numeric 0 in any of the ten fields fails the presence check |
| Vitals.VitalsStore.constructor | heart-backend/models/UserVitals.js:3-16 | the collection starts empty |
| Vitals.VitalsStore.Post | heart-backend/routes/vitals.js:7-52 | an incomplete body gives 400 with no change; otherwise the record is appended and its id returned; success holds exactly for 201 |
| Vitals.VitalsStore.Latest | heart-backend/routes/userData.js:59-75 | 404 exactly when the caller has no entry; otherwise one of the caller's entries with no later timestamp among them |
| Vitals.SavedIsLatest | heart-backend/routes/userData.js:64 | an entry saved last is found by the next lookup, up to a tie on the timestamp |
| Listing.Filter | heart-backend/routes/reports.js:55 | the kept records are exactly those accepted, with the same multiplicities |
| Listing.NewestFirst | heart-backend/routes/reports.js:55-57 | the result is a permutation of the records, sorted newest first |
| Listing.Newest | heart-backend/routes/userData.js:64 | a record with the greatest timestamp, or none exactly when there are no records |
| Auth.IndexOfEmail | heart-backend/routes/auth.js:21 | finds a user with the email, or reports that none has it |
| Auth.IndexOfResetToken | heart-backend/routes/resetPasswordRoutes.js:15-18 | finds a user holding the token unexpired, or reports that none does |
| Auth.SetPassword | heart-backend/controllers/authController.js:74 | the user with the id gets the hash and all others are unchanged |
| Auth.Cleared | heart-backend/routes/resetPasswordRoutes.js:59-63 | the new hash is set and both reset fields cleared; identity is kept |
| Auth.SameEmailKeepsDistinct | heart-backend/models/User.js:3-9 | replacing a user by one with the same email keeps emails distinct |
| Auth.ResetTokenSingleUse | heart-backend/routes/resetPasswordRoutes.js:59-63 | after a reset the token is held by nobody at any time |
| Auth.ResetPage | heart-backend/routes/resetPasswordRoutes.js:10-33 | the form is shown exactly when some user holds the token unexpired, posting back to /api/reset-password/<token>; otherwise the invalid-token page |
| Auth.UserTable.constructor | heart-backend/models/User.js:3-9 | the table starts empty |
| Auth.UserTable.Insert | heart-backend/routes/auth.js:26-28 | appends the user with the hashed password and the next id, keeping emails distinct |
| Auth.UserTable.Signup | heart-backend/routes/auth.js:18-32 | an existing email is refused with no change; otherwise the user is added |
| Auth.UserTable.Register | heart-backend/controllers/authController.js:9-25 | the same as Signup with the controller's messages |
| Auth.UserTable.Login | heart-backend/routes/auth.js:35-49 | one refusal for an unknown email or a wrong password; otherwise a 7-day token with id, email and username |
| Auth.UserTable.SignIn | heart-backend/controllers/authController.js:28-44 | one refusal for both failures; otherwise a 1-day token with username and email |
| Auth.UserTable.ForgotPassword | heart-backend/routes/auth.js:52-82 | an unknown email gives 400 with no change; otherwise the token and an expiry an hour ahead are stored, and the link mailed; the reply depends only on the mail outcome |
| Auth.UserTable.MailResetJwt | heart-backend/controllers/authController.js:47-63 | an unknown email gives 404; otherwise a 15-minute JWT is mailed; the table is not touched |
| Auth.UserTable.ResetByJwt | heart-backend/controllers/authController.js:66-80 | an unverifiable or expired token gives 400 with no change; otherwise the named user's password is set |
| Auth.UserTable.ShowResetForm | heart-backend/routes/resetPasswordRoutes.js:10-33 | the page is ResetPage's |
| Auth.UserTable.ResetWithToken | heart-backend/routes/resetPasswordRoutes.js:38-68 | an invalid token, then differing passwords, each with no change; otherwise the holder is Cleared |
| Auth.ResetTokenExpiresAfterAnHour | heart-backend/routes/auth.js:61 | a fresh token is accepted exactly before its hour ends |
| Auth.StoredTokenIsFound | heart-backend/routes/auth.js:59-62 | the token the forgot route stores is found by the reset route at any instant before the hour is over |
| Auth.LoginTokenResetsPassword | heart-backend/controllers/authController.js:71 | any unexpired JWT is accepted: a login token works for its whole day, a mailed one for 15 minutes |
| AuthScreens.LoginSubmit | heart-app/screens/LoginScreen.js:19-29 | an alert exactly when a raw field is empty; otherwise the trimmed lower-cased email and the trimmed password are sent |
| AuthScreens.BlankEmailSentEmpty | heart-app/screens/LoginScreen.js:19-29 | an email made only of spaces passes the check and is sent empty |
| AuthScreens.LoginEmailNormalised | heart-app/screens/LoginScreen.js:29 | the sent email has no upper-case letter and no surrounding space, and neither does the password |
| AuthScreens.MessageOr | heart-app/screens/LoginScreen.js:44 | the server's message when truthy, else the fallback; never falsy (the forgot-password screen uses the same rule at its lines 36 and 40-43) |
| AuthScreens.SignupSubmit | heart-app/screens/SignupScreen.js:32-43 | an alert exactly when the trimmed username, the trimmed email or the raw password is empty; otherwise the trimmed username and email and the password as typed |
| AuthScreens.BlankPasswordAccepted | heart-app/screens/SignupScreen.js:32 | a password of spaces only is accepted and sent as typed |
| AuthScreens.SignupFailureText | heart-app/screens/SignupScreen.js:49-53 | the message when truthy, else the error when truthy, else "Something went wrong during signup. Please try again."; never falsy |
| AuthScreens.ForgotSubmit | heart-app/screens/ForgotPasswordScreen.js:24-33 | an alert exactly for an empty raw email; otherwise the trimmed lower-cased email, with no upper-case letter |
| AuthScreens.BlankForgotEmailSentEmpty | heart-app/screens/ForgotPasswordScreen.js:24-33 | an email made only of spaces is sent empty |
| AuthScreens.NewPasswordSubmit | heart-app/screens/NewPasswordScreen.js:22-39 | a request exactly when the passwords are equal, non-empty and at least 6 UTF-16 code units long; the three alerts come in the source's order; the request goes to /api/auth/reset-password/<token> |
| AuthScreens.ThreeEmojiAreLongEnough | heart-app/screens/NewPasswordScreen.js:30 | a password of three emoji, six code units, passes the length check |
| AuthScreens.UppercaseEmailNeverLogsIn | heart-app/screens/LoginScreen.js:29 | an account whose signup email has an upper-case letter is never the one a login finds |
| AuthScreens.PaddedPasswordNeverMatches | heart-app/screens/SignupScreen.js:41-43 | a signup password with surrounding spaces never matches a login password |
| AuthScreens.NewPasswordPathUnrouted | heart-backend/app.js:34-40 | the new-password path is under /api/auth, its remainder is none of the auth router's paths, and it is not under /api/reset-password |
| CameraScreen.Toggled | heart-app/screens/CameraScreen.js:50-52 | the facing always changes |
| CameraScreen.ToggleTwiceIsIdentity | heart-app/screens/CameraScreen.js:50-52 | toggling twice restores the facing |
| CameraScreen.FirstThree | heart-app/screens/CameraScreen.js:58 | a prefix of at most three images, exactly three when there are that many |
| CameraScreen.ExistingImagesKept | heart-app/screens/CameraScreen.js:58 | images already held keep their places |
| CameraScreen.FullListUnchanged | heart-app/screens/CameraScreen.js:70-72 | a full list takes no more images |
| CameraScreen.FourthCaptureDropped | heart-app/screens/CameraScreen.js:58 | a fourth capture is dropped |
| CameraScreen.UploadForm | heart-app/screens/CameraScreen.js:96-110 | the form is ECG, echo and X-ray, then the vitals in order, then reportType defaulting to "Report" |
| CameraScreen.CameraView.constructor | heart-app/screens/CameraScreen.js:26-29 | no images, back camera |
| CameraScreen.CameraView.ToggleCameraFacing | heart-app/screens/CameraScreen.js:50-52 | the facing toggles and the images stay |
| CameraScreen.CameraView.TakePicture | heart-app/screens/CameraScreen.js:55-60 | the photo is appended up to three images; nothing changes without a camera |
| CameraScreen.CameraView.PickImagesFromGallery | heart-app/screens/CameraScreen.js:63-74 | the picks are appended up to three images; a cancelled pick changes nothing |
| CameraScreen.CameraView.ClearImages | heart-app/screens/CameraScreen.js:78-80 | the images are emptied |
| CameraScreen.CameraView.UploadReport | heart-app/screens/CameraScreen.js:82-117 | no request unless exactly three images are held; otherwise the loop builds exactly UploadForm |
| CameraScreen.ShowsResult | heart-app/screens/CameraScreen.js:129 | the screen navigates exactly when status is "success" |
| CameraScreen.PredictReplyNeverShowsResult | heart-backend/routes/predict.js:128-138 | a successful prediction reply never satisfies the camera screen's success check |
| AddUserDataScreen.With | heart-app/screens/AddUserDataScreen.js:45-47 | the changed input shows the value and every other input is unchanged |
| AddUserDataScreen.Incomplete | heart-app/screens/AddUserDataScreen.js:63-73 | the chain of ten tests holds exactly when some text input is empty or some picker is still on its placeholder |
| AddUserDataScreen.Payload | heart-app/screens/AddUserDataScreen.js:85-96 | the payload has exactly the ten keys the vitals route reads; age, weight, height and cholesterol level are sent as `Number` of their input, and the other six, blood pressure included, as the typed text |
| AddUserDataScreen.HandleNext | heart-app/screens/AddUserDataScreen.js:63-96 | "incomplete" exactly when a text input is empty or a picker is on its placeholder; then "log in" exactly when there is no token; otherwise the payload is sent |
| AddUserDataScreen.UntouchedFormRefused | heart-app/screens/AddUserDataScreen.js:24-35 | the initial form is refused whatever the token |
| AddUserDataScreen.CompleteFormIsSent | heart-app/screens/AddUserDataScreen.js:63-96 | a filled form with a token is sent |
| AddUserDataScreen.NextScreen | heart-app/screens/AddUserDataScreen.js:102-107 | the screen navigates exactly when success and vitalsId are both truthy, passing the id |
| AddUserDataScreen.UserDataForm.constructor | heart-app/screens/AddUserDataScreen.js:24-35 | the form starts with its empty inputs and placeholders |
| AddUserDataScreen.UserDataForm.HandleChange | heart-app/screens/AddUserDataScreen.js:45-47 | the one input is replaced |
| AddUserDataScreen.ZeroAgePassesClientNotServer | heart-backend/routes/vitals.js:23-29 | an age "0" passes the screen's check and, once the body has made its JSON trip, fails the server's presence check |
| AddUserDataScreen.ZeroAgeMissing | heart-app/screens/AddUserDataScreen.js:85-96 | a payload whose age converts to 0 fails the server's check, both as built and as parsed by the server |
| AddReportNameScreen.Hundredth | heart-app/screens/AddReportNameScreen.js:42 | a finite score is divided by 100; NaN and infinities carry over |
| AddReportNameScreen.ScoreToProbability | heart-app/screens/AddReportNameScreen.js:42 | a falsy score gives null; otherwise its number divided by 100 |
| AddReportNameScreen.ZeroScoreIsNull | heart-app/screens/AddReportNameScreen.js:42 | a score of 0 is sent as null |
| AddReportNameScreen.SaveRequest | heart-app/screens/AddReportNameScreen.js:27-46 | no request exactly for a blank name; otherwise the name as typed, type "AI Result" and every other field read from the parameters |
| AddReportNameScreen.ResultParams | heart-app/screens/ResultScreen.js:204 | the parameters are exactly risk, recommendations, predictionScore, userData and images |
| AddReportNameScreen.ResultScreenLosesRecommendation | heart-app/screens/AddReportNameScreen.js:21-22 | coming from the result screen, the body always has an undefined recommendation and rawResult |
| AddReportNameScreen.AsJson | heart-app/screens/AddReportNameScreen.js:35-46 | the server reads only keys of the literal, every value JSON-safe; the name and type as typed; a NaN or infinite probability as null; every JSON-safe field unchanged |
| AddReportNameScreen.InfiniteScoreArrivesAsNull | heart-app/screens/AddReportNameScreen.js:42 | an infinite score is sent as a probability the server reads as null |
| AddReportNameScreen.AcceptedNameIsAcceptedByServer | heart-backend/routes/reports.js:22-24 | a name the screen lets through passes the server's name check |
| ResultScreen.SecondEntry | heart-app/screens/ResultScreen.js:87 | a throw exactly for undefined and null; an array's second item, undefined when it is shorter; an object's property "1"; undefined for a number or a boolean; a string's second character |
| ResultScreen.Percent | heart-app/screens/ResultScreen.js:82 | a finite p gives the integer nearest to 100p, a tie going up; NaN and the infinities pass through |
| ResultScreen.Decision | heart-app/screens/ResultScreen.js:78 | final_decision when it is truthy, else "Unknown"; always truthy |
| ResultScreen.Recommendations | heart-app/screens/ResultScreen.js:95-115 | three texts: high advice exactly for "high"; moderate advice exactly for "moderate" or "medium" without "high"; otherwise low advice |
| ResultScreen.ChooseRecommendations | heart-app/screens/ResultScreen.js:95-114 | the method selects Recommendations |
| ResultScreen.RiskColor | heart-app/screens/ResultScreen.js:118-124 | black for a falsy value; a throw for a truthy non-string; for a string, red for "high"; else green for "low"; else amber for "moderate" or "medium"; else black |
| ResultScreen.ResultView.constructor | heart-app/screens/ResultScreen.js:25-29 | the initial state is Unknown, no recommendations, 0 and "Pending" |
| ResultScreen.ResultView.ProcessResult | heart-app/screens/ResultScreen.js:76-116 | fusion first, then tabular (where `null[1]` throws with no change), else score 0; the risk is the decision; recommendations follow it, unless it is a non-string, which throws |
| ResultScreen.UnknownIsLowAdviceBlackColour | heart-app/screens/ResultScreen.js:108-123 | "Unknown" gets the low-risk advice and the fallback colour |
| ResultScreen.MixedLabelGetsModerateAdvice | heart-app/screens/ResultScreen.js:102 | "Low-Moderate" gets the moderate advice |
| ResultScreen.MixedLabelGetsLowColour | heart-app/screens/ResultScreen.js:121 | "Low-Moderate" gets the low-risk colour |
| ResultScreen.ScoreIsRoundedPercent | heart-app/screens/ResultScreen.js:82 | 0.62 shows as 62 and 0.625 as 63 |
| Text.TrimStart | heart-backend/routes/predict.js:28 | the suffix starting at the first non-space character |
| Text.TrimEnd | heart-backend/routes/predict.js:28 | the prefix ending at the last non-space character |
| Text.TrimIsTrimmed | heart-backend/routes/predict.js:117 | a trim has no white space at either end |
| Text.TrimIdempotent | heart-backend/routes/predict.js:117 | trimming twice is trimming once |
| Text.TrimEmptyIffAllSpace | heart-backend/routes/reports.js:22 | the trim is empty exactly when every character is white space |
| Text.Lower | heart-app/screens/LoginScreen.js:29 | each character lower-cased, length kept |
| Text.LowerHasNoUpper | heart-app/screens/LoginScreen.js:29 | a lower-cased string has no upper-case letter |
| Text.BeforeFirst | heart-backend/routes/predict.js:68 | the prefix up to the first separator, which it does not contain |
| Text.StartsAtContains | heart-app/screens/ResultScreen.js:96 | a string starting at some position is included |
| Text.MissingFirstCharNotContained | heart-app/screens/ResultScreen.js:96 | a string whose first character is absent is not included |
| Text.Utf16Length | heart-app/screens/NewPasswordScreen.js:30 | one or two code units per character, so between the character count and twice it |
| Text.Utf16LengthOfBmp | heart-app/screens/NewPasswordScreen.js:30 | text inside the Basic Multilingual Plane has as many code units as characters |
| Json.Trip | heart-app/screens/AddReportNameScreen.js:35-46 | only undefined stays undefined; everything else arrives JSON-safe; NaN and the infinities arrive as null |
| Json.SafeTripIsIdentity | heart-app/screens/AddReportNameScreen.js:35-46 | a JSON-safe value arrives unchanged |
| Json.Body | heart-app/screens/AddReportNameScreen.js:35-46 | each property reads as its value after the trip, and every present one is JSON-safe; no property appears that was not sent, and a JSON-safe one arrives unchanged |
| Js.NatText | heart-backend/routes/uploadReport.js:17 | the decimal digits of n, with no leading zero |
| Js.NatTextRoundTrip | heart-backend/routes/predict.js:38-41 | Number(String(n)) is n |
| Js.NoDigitNoFiniteValue | heart-backend/routes/predict.js:38-41 | text with no decimal digit converts to NaN, an infinity or 0 |

## Left out

- HTTP, Express routing, multer and MongoDB are not modelled as such. Each handler is a method on an in-memory collection, and its reply is a datatype. Ids are consecutive naturals in place of ObjectIds, so a malformed id and its cast error are not modelled.
- Save failures of the database are left out of every handler except the prediction route. There they model the ways the code reaches its 500: a name that cannot be trimmed, and a schema rejection.
- Mongoose schema casting and strict mode are otherwise left out. The modelled schema rules are the Prediction risk enum, its required report name, and the Number cast's refusal of NaN for the three probabilities.
- Reports.ReportStore.SaveWithFiles: the Report schema declares `images: [String]` (heart-backend/models/Report.js:13). An uploaded file's `{data, base64, contentType}` entry cannot be cast to a string, so with files the real save fails and the route answers 500. The model appends the record and answers 201.
- Reports.ReportStore.UploadResult: the same cast failure applies to its image entries, so the real route answers 500 after the service call. The model answers 201. Strict mode also drops the undeclared `result`, so the reply's `finalResult` is undefined, while the model keeps the service's answer and the summary in the record.
- Reports.ReportStore.SaveResult: strict mode drops the undeclared `result`, so the stored record has no text result and the reply's `finalResult` is undefined. The model keeps it.
- Reports.ReportStore.SaveImageReport: strict mode drops the undeclared `imagePath`, `imageBase64` and `date`. The model stores them.
- Reports.ReportStore.HistoryByDate: because `date` is never stored, the real query sorts on an absent field. The model sorts on the date the image route records.
- Multer's limit of five files is left out. So are its file-type filter and the storage of uploads.
- The clock (`Date.now()`), `Math.random`, `crypto.randomBytes`, bcrypt's salt, JWT signing and the mail transport are parameters. A hash is modelled as the identity of its plain text. A JWT is modelled as its claims.
- The external predictor (`predictHeartDisease`: the spawned process, its timeout and its output parsing), the Colab analysis service and the two models inside `predict.py` are function-typed parameters. The prediction route's predictor parameter receives the text features and the image paths only; the `extraUserData` field of predict.js:93 (`JSON.parse(userData)`, or `{}` when it is absent or does not parse) is not passed to it, and no proved property depends on it.
- `predict_images` in `predict.py` is not modelled as code. It needs the image model and file I/O. Its result is modelled as a list of dict or error entries.
- Numbers are exact reals, so binary floating-point rounding is not modelled. `toFixed(2)` is round-half-away-from-zero on exact values.
- Text.Lower: lower-cases ASCII letters only, because Unicode case mapping is out of scope.
- The base64 decoding and the file write of the image-report route are left out. The file to write is returned as a value instead.
- Reports.ReportStore.UploadResult: the summary is kept as its two interpolated values rather than the formatted string.
- Reports.BuildColabForm: treats a text field that is an array, an object or a boolean as appended. form-data refuses arrays, and its handling of the other two is not modelled. A multipart body normally holds only strings.
- ResultScreen.SecondEntry: indexes a string by character, where JavaScript indexes by UTF-16 code unit, so the two differ when the first character lies outside the Basic Multilingual Plane.
- AddReportNameScreen.AsJson: functions, dates and `toJSON` methods are outside the value model, so their serialisation is not modelled.
- Auth.UserTable.Signup: takes the password as a string. A missing or non-string password, for which `bcrypt.hash` throws and the route answers 500, is not modelled.
- Auth.UserTable.Register: the same as Signup. A missing password makes the controller answer 500, and that is not modelled.
- Auth.UserTable.Login: takes the email and password as strings. A missing password, for which `bcrypt.compare` throws and the route answers 500, is not modelled. Nor is a missing email, whose effect depends on how the database driver serialises an undefined filter value.
- Auth.UserTable.SignIn: the same as Login, for the controller.
- Auth.UserTable.ForgotPassword: takes the email as a string. A missing or non-string email, whose lookup then depends on how the database driver serialises an undefined or object filter value, is not modelled.
- Auth.UserTable.MailResetJwt: the same as ForgotPassword, for the controller.
- Auth.UserTable.ResetWithToken: takes the password and its confirmation as strings. When both are missing, `undefined !== undefined` is false, so `bcrypt.hash(undefined, 10)` rejects; the handler has no try/catch and sends no reply. That path is not modelled. Neither is a non-string field from the extended URL-encoded parser.
- Auth.UserTable.ResetByJwt: takes the new password as a string. A missing password, for which `bcrypt.hash` throws inside the handler's try and the controller answers 400, is not modelled.
- The result screen's `fetchPrediction` network call, its PDF/share actions and its rendering are left out.
- The camera screen's permissions, camera ref and loading state are left out. So is the app's navigation stack. `Object.entries(userData)` is modelled as an ordered list of pairs.
- AddUserDataScreen.UserDataForm.HandleChange: the key is one of the ten field names, not an arbitrary string.
- Some routers are modelled even though app.js does not mount them: report.js, uploadReport.js and authController.js. The code is modelled as written.
- Screens with no logic beyond rendering are left out: home, history, OTP. So are the PDF route, the results router, `server.js` and the app's API helper.
- Auth.ResetTokenSingleUse: holds only when no other user holds the same token. The route draws tokens from 32 random bytes, and a collision is not modelled.
- Auth.StoredTokenIsFound: holds only when no other user holds the same token, for the same reason.
- Vitals.SavedIsLatest: states the found entry's timestamp, not its identity, because the database leaves ties in any order.
